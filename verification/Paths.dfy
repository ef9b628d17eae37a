/** Portable repository paths and the scope calculus over them.

    `PathName` admits ASCII only, so case folding is the ASCII one. */
module Paths {

  function FoldChar(c: char): char {
    if 'A' <= c <= 'Z' then ((c as int) + 32) as char else c
  }

  function Fold(s: string): (r: string)
    ensures |r| == |s|
    ensures forall i :: 0 <= i < |s| ==> r[i] == FoldChar(s[i])
  {
    seq(|s|, i requires 0 <= i < |s| => FoldChar(s[i]))
  }

  /** A trailing slash makes a scope a directory prefix; otherwise it names one file. */
  predicate IsDirectory(scope: string) {
    |scope| > 0 && scope[|scope| - 1] == '/'
  }

  predicate Covers(scope: string, path: string) {
    if IsDirectory(scope) then Fold(scope) <= Fold(path) else Fold(path) == Fold(scope)
  }

  predicate Overlaps(left: string, right: string) {
    Covers(left, right) || Covers(right, left)
  }

  predicate CoveredBySome(scopes: set<string>, path: string) {
    exists s | s in scopes :: Covers(s, path)
  }

  // ---------------------------------------------------------------- path names

  const RESERVED: set<string> := {
    "con", "prn", "aux", "nul",
    "com1", "com2", "com3", "com4", "com5", "com6", "com7", "com8", "com9",
    "lpt1", "lpt2", "lpt3", "lpt4", "lpt5", "lpt6", "lpt7", "lpt8", "lpt9"
  }

  const MAX_PATH := 512

  predicate PathChar(c: char) {
    'A' <= c <= 'Z' || 'a' <= c <= 'z' || '0' <= c <= '9' || c == '_' || c == '.' || c == '-'
  }

  function Split(s: string, separator: char): (parts: seq<string>)
    ensures |parts| > 0
    ensures forall p | p in parts :: separator !in p
  {
    if s == [] then [[]]
    else if s[0] == separator then [[]] + Split(s[1..], separator)
    else
      var rest := Split(s[1..], separator);
      [[s[0]] + rest[0]] + rest[1..]
  }

  predicate PathPart(part: string) {
    && part != []
    && (forall c | c in part :: PathChar(c))
    && part != "." && part != ".."
    && part[|part| - 1] != '.'
    && Fold(part) != ".git"
    && Fold(Split(part, '.')[0]) !in RESERVED
  }

  predicate PathName(value: string, prefix: bool) {
    && 0 < |value| <= MAX_PATH
    && var path := if prefix && IsDirectory(value) then value[..|value| - 1] else value;
       forall part | part in Split(path, '/') :: PathPart(part)
  }

  // ------------------------------------------------------- the scope calculus

  lemma FoldKeepsSlash(s: string, i: nat)
    requires i < |s|
    ensures Fold(s)[i] == '/' <==> s[i] == '/'
  {
  }

  /** The directory test may be made before or after folding. */
  lemma FoldedDirectory(s: string, t: string)
    requires Fold(s) == Fold(t)
    ensures IsDirectory(s) == IsDirectory(t)
  {
    assert |s| == |Fold(s)| == |t|;
    if |s| > 0 {
      FoldKeepsSlash(s, |s| - 1);
      FoldKeepsSlash(t, |t| - 1);
    }
  }

  lemma CoversTransitive(outer: string, inner: string, path: string)
    requires Covers(outer, inner) && Covers(inner, path)
    ensures Covers(outer, path)
  {
    if !IsDirectory(outer) {
      FoldedDirectory(outer, inner);
    }
  }

  /** Two scopes that cover a common path are prefix-comparable. */
  lemma CommonPathOverlaps(left: string, right: string, path: string)
    requires Covers(left, path) && Covers(right, path)
    ensures Overlaps(left, right)
  {
    if IsDirectory(left) && IsDirectory(right) {
      if |left| <= |right| {
        assert Fold(left) == Fold(path)[..|left|];
        assert Fold(right) == Fold(path)[..|right|];
        assert Fold(left) == Fold(right)[..|left|];
      } else {
        assert Fold(right) == Fold(path)[..|right|];
        assert Fold(left) == Fold(path)[..|left|];
        assert Fold(right) == Fold(left)[..|right|];
      }
    }
  }

  /** What `parse_task` requires of each path a task asks for. */
  predicate ScopeAccepted(permitted: set<string>, isolated: set<string>, path: string) {
    && PathName(path, true)
    && CoveredBySome(permitted, path)
    && !(exists s | s in isolated :: Overlaps(s, path))
  }

  /** An accepted task scope grants nothing the policy withholds: every path it covers
      is inside some policy scope and inside no protected one. */
  lemma AcceptedScopeIsContained(permitted: set<string>, isolated: set<string>, scopes: set<string>, path: string)
    requires forall s | s in scopes :: ScopeAccepted(permitted, isolated, s)
    requires CoveredBySome(scopes, path)
    ensures CoveredBySome(permitted, path)
    ensures !CoveredBySome(isolated, path)
  {
    var scope :| scope in scopes && Covers(scope, path);
    var outer :| outer in permitted && Covers(outer, scope);
    CoversTransitive(outer, scope, path);
    if CoveredBySome(isolated, path) {
      var guard :| guard in isolated && Covers(guard, path);
      CommonPathOverlaps(guard, scope, path);
    }
  }

  // ------------------------------------------------------- what overlapping means

  lemma {:induction false} SplitAppend(s: string, part: string, separator: char)
    requires separator !in part
    ensures Split(s + [separator] + part, separator) == Split(s, separator) + [part]
    decreases |s|
  {
    var whole := s + [separator] + part;
    if s == [] {
      assert whole[1..] == part;
      SplitLone(part, separator);
    } else {
      assert whole[1..] == s[1..] + [separator] + part;
      SplitAppend(s[1..], part, separator);
      if s[0] != separator {
        var rest := Split(s[1..], separator);
        assert (rest + [part])[0] == rest[0] && (rest + [part])[1..] == rest[1..] + [part];
      }
    }
  }

  lemma {:induction false} SplitLone(part: string, separator: char)
    requires separator !in part
    ensures Split(part, separator) == [part]
    decreases |part|
  {
    if part != [] {
      assert part[0] in part;
      assert forall c | c in part[1..] :: c in part;
      SplitLone(part[1..], separator);
      assert [part[0]] + part[1..] == part;
    }
  }

  /** A file inside a directory scope, and the file a file scope names. */
  function Inside(scope: string): string {
    if IsDirectory(scope) then scope + "x" else scope
  }

  lemma InsideIsCovered(scope: string)
    ensures Covers(scope, Inside(scope))
  {
    if IsDirectory(scope) {
      assert Fold(scope + "x")[..|scope|] == Fold(scope);
    }
  }

  lemma LetterIsPart()
    ensures PathPart("x")
  {
    SplitLone("x", '.');
    assert Fold("x") == "x";
  }

  lemma InsideIsPath(scope: string)
    requires PathName(scope, true) && |scope| < MAX_PATH
    ensures PathName(Inside(scope), false)
  {
    if IsDirectory(scope) {
      var directory := scope[..|scope| - 1];
      assert scope + "x" == directory + ['/'] + "x";
      SplitAppend(directory, "x", '/');
      LetterIsPart();
    }
  }

  /** What lies inside the narrower of two overlapping scopes is covered by both. */
  lemma NarrowerIsShared(outer: string, inner: string)
    requires Covers(outer, inner)
    ensures Covers(outer, Inside(inner)) && Covers(inner, Inside(inner))
  {
    InsideIsCovered(inner);
    CoversTransitive(outer, inner, Inside(inner));
  }

  /** The overlap test is exact: two scope names, below the length limit, overlap if and only
      if some repository path is covered by both. */
  lemma OverlapsIffShared(left: string, right: string)
    requires PathName(left, true) && PathName(right, true) && |left| < MAX_PATH && |right| < MAX_PATH
    ensures Overlaps(left, right) <==> exists path :: PathName(path, false) && Covers(left, path) && Covers(right, path)
  {
    InsideIsPath(left);
    InsideIsPath(right);
    if Covers(left, right) {
      NarrowerIsShared(left, right);
    } else if Covers(right, left) {
      NarrowerIsShared(right, left);
    }
    if path :| PathName(path, false) && Covers(left, path) && Covers(right, path) {
      CommonPathOverlaps(left, right, path);
    }
  }
}

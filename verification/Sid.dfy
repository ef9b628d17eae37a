/** Security identifiers: the binary layout of section 2.4.2.2 of [MS-DTYP] and its printed form. */
module Sids {
  import opened Results
  import opened Octets
  import Paths
  import Objectives

  datatype Sid = Sid(revision: nat, authority: nat, subs: seq<nat>)

  /** What a directory attribute may hold. */
  datatype Attribute = Text(text: string) | Binary(bytes: Bytes) | Many(items: seq<Attribute>) | Other

  const HEADER := 8

  /** The second byte counts the sub-authorities. */
  function CountOf(raw: Bytes): nat
    requires |raw| > 1
  {
    raw[1]
  }

  predicate WellSized(raw: Bytes) {
    |raw| >= HEADER && |raw| == HEADER + 4 * CountOf(raw)
  }

  /** One sub-authority: four bytes, least significant first. */
  function SubAt(raw: Bytes, i: nat): nat
    requires |raw| >= HEADER + 4 * (i + 1)
  {
    LittleEndian(raw[HEADER + 4 * i..HEADER + 4 * i + 4])
  }

  function Decode(raw: Bytes): Result<Sid> {
    if !WellSized(raw) then Rejected
    else Ok(Sid(raw[0], BigEndian(raw[2..8]), Subs(raw, CountOf(raw))))
  }

  function Subs(raw: Bytes, n: nat): (subs: seq<nat>)
    requires |raw| >= HEADER + 4 * n
    ensures |subs| == n && forall i | 0 <= i < n :: subs[i] == SubAt(raw, i)
  {
    seq(n, i requires 0 <= i < n => SubAt(raw, i))
  }

  function Joined(parts: seq<string>): string
    decreases |parts|
  {
    if parts == [] then "" else if |parts| == 1 then parts[0] else parts[0] + "-" + Joined(parts[1..])
  }

  function Numbers(s: Sid): seq<nat> {
    [s.revision, s.authority] + s.subs
  }

  function Numerals(numbers: seq<nat>): (r: seq<string>)
    ensures |r| == |numbers| && forall i | 0 <= i < |r| :: r[i] == Decimal(numbers[i])
  {
    seq(|numbers|, i requires 0 <= i < |numbers| => Decimal(numbers[i]))
  }

  function Print(s: Sid): string {
    "S-" + Joined(Numerals(Numbers(s)))
  }

  /** `_sid_text`. */
  function SidText(value: Attribute): Result<string> {
    match value
    case Many(items) => if |items| == 1 then SingleText(items[0]) else Rejected
    case _ => SingleText(value)
  }

  function SingleText(value: Attribute): Result<string> {
    match value
    case Text(text) =>
      var stripped := Objectives.StripRight(Objectives.StripLeft(text));
      if "S-" <= stripped then Ok(stripped) else Rejected
    case Binary(raw) => var sid := Decode(raw); if sid.Ok? then Ok(Print(sid.value)) else Rejected
    case _ => Rejected
  }

  // ------------------------------------------------------------------ reading it back

  predicate AllWords(words: seq<Bytes>) {
    forall i | 0 <= i < |words| :: |words[i]| == 4
  }

  function Flatten(words: seq<Bytes>): (b: Bytes)
    ensures AllWords(words) ==> |b| == 4 * |words|
    decreases |words|
  {
    if words == [] then [] else Flatten(words[..|words| - 1]) + words[|words| - 1]
  }

  function Words(subs: seq<nat>, width: nat): (words: seq<Bytes>)
    ensures |words| == |subs|
    ensures forall i | 0 <= i < |subs| :: |words[i]| == width && words[i] == ToLittle(subs[i], width)
  {
    seq(|subs|, i requires 0 <= i < |subs| => ToLittle(subs[i], width))
  }

  function EncodeSubs(subs: seq<nat>): (b: Bytes)
    ensures |b| == 4 * |subs|
  {
    Flatten(Words(subs, 4))
  }

  /** The binary form of a SID with at most 255 sub-authorities. */
  function Encode(s: Sid): Bytes
    requires s.revision < 256 && |s.subs| < 256
  {
    [s.revision, |s.subs|] + ToBig(s.authority, 6) + EncodeSubs(s.subs)
  }

  lemma SubRoundTrip(raw: Bytes, i: nat)
    requires |raw| >= HEADER + 4 * (i + 1)
    ensures ToLittle(SubAt(raw, i), 4) == raw[HEADER + 4 * i..HEADER + 4 * i + 4]
  {
    var word := raw[HEADER + 4 * i..HEADER + 4 * i + 4];
    assert |word| == 4;
    LittleRoundTrip(word);
  }

  /** Consecutive four-byte chunks make up the whole stretch. */
  lemma {:induction false} FlattenedChunks(words: seq<Bytes>, raw: Bytes)
    requires |raw| >= HEADER + 4 * |words|
    requires forall i | 0 <= i < |words| :: words[i] == raw[HEADER + 4 * i..HEADER + 4 * i + 4]
    ensures Flatten(words) == raw[HEADER..HEADER + 4 * |words|]
    decreases |words|
  {
    if words != [] {
      var m := |words| - 1;
      FlattenedChunks(words[..m], raw);
      JoinSlices(raw, HEADER, HEADER + 4 * m, HEADER + 4 * m + 4);
    }
  }

  lemma SubsRoundTrip(raw: Bytes, n: nat)
    requires |raw| >= HEADER + 4 * n
    ensures EncodeSubs(Subs(raw, n)) == raw[HEADER..HEADER + 4 * n]
  {
    var words := Words(Subs(raw, n), 4);
    forall i | 0 <= i < n
      ensures words[i] == raw[HEADER + 4 * i..HEADER + 4 * i + 4]
    {
      SubRoundTrip(raw, i);
    }
    FlattenedChunks(words, raw);
  }

  lemma JoinSlices(raw: Bytes, i: nat, j: nat, k: nat)
    requires i <= j <= k <= |raw|
    ensures raw[i..j] + raw[j..k] == raw[i..k]
  {
  }

  /** Decoding loses nothing: the numbers determine the bytes. */
  lemma DecodeIsLossless(raw: Bytes)
    requires Decode(raw).Ok?
    ensures Decode(raw).value.revision < 256 && |Decode(raw).value.subs| < 256
    ensures Encode(Decode(raw).value) == raw
  {
    BigRoundTrip(raw[2..8]);
    SubsRoundTrip(raw, CountOf(raw));
    assert raw == raw[..2] + raw[2..8] + raw[8..];
    assert raw[..2] == [raw[0], raw[1]];
  }

  predicate InRange(s: Sid) {
    && s.revision < 256 && s.authority < Pow256(6) && |s.subs| < 256
    && forall n | n in s.subs :: n < Pow256(4)
  }

  lemma {:induction false} FlattenedSlice(words: seq<Bytes>, i: nat)
    requires i < |words| && AllWords(words)
    ensures Flatten(words)[4 * i..4 * i + 4] == words[i]
    decreases |words|
  {
    var m := |words| - 1;
    var head := Flatten(words[..m]);
    if i < m {
      FlattenedSlice(words[..m], i);
      PrefixSlice(head, words[m], 4 * i, 4 * i + 4);
    } else {
      SuffixSlice(head, words[m]);
    }
  }

  lemma PrefixSlice(head: Bytes, tail: Bytes, i: nat, j: nat)
    requires i <= j <= |head|
    ensures (head + tail)[i..j] == head[i..j]
  {
  }

  lemma SuffixSlice(head: Bytes, tail: Bytes)
    ensures (head + tail)[|head|..|head| + |tail|] == tail
  {
  }

  lemma WordFits(n: nat)
    requires n < Pow256(4)
    ensures LittleEndian(ToLittle(n, 4)) == n
  {
    LittleFits(n, 4);
  }

  lemma EncodedSubAt(subs: seq<nat>, i: nat)
    requires i < |subs| && subs[i] < Pow256(4)
    ensures LittleEndian(EncodeSubs(subs)[4 * i..4 * i + 4]) == subs[i]
  {
    FlattenedSlice(Words(subs, 4), i);
    WordFits(subs[i]);
  }

  /** ... and every SID in range is decoded from its bytes. */
  lemma EncodeIsDecoded(s: Sid)
    requires InRange(s)
    ensures Decode(Encode(s)) == Ok(s)
  {
    var raw := Encode(s);
    EncodedParts(s);
    BigFits(s.authority, 6);
    var subs := Subs(raw, |s.subs|);
    forall i | 0 <= i < |s.subs|
      ensures subs[i] == s.subs[i]
    {
      assert s.subs[i] in s.subs;
      EncodedSubAt(s.subs, i);
      EncodedWord(s, i);
    }
    assert subs == s.subs;
  }

  lemma EncodedParts(s: Sid)
    requires s.revision < 256 && |s.subs| < 256
    ensures var raw := Encode(s);
      WellSized(raw) && CountOf(raw) == |s.subs| && raw[0] == s.revision && raw[2..8] == ToBig(s.authority, 6)
  {
  }

  lemma EncodedWord(s: Sid, i: nat)
    requires s.revision < 256 && |s.subs| < 256 && i < |s.subs|
    ensures |Encode(s)| == HEADER + 4 * |s.subs|
    ensures Encode(s)[HEADER + 4 * i..HEADER + 4 * i + 4] == EncodeSubs(s.subs)[4 * i..4 * i + 4]
  {
    var raw := Encode(s);
    assert raw[HEADER..] == EncodeSubs(s.subs);
  }

  // --------------------------------------------------------------------- printed form

  lemma SplitStep(s: string, head: string, tail: seq<string>)
    requires s != [] && s[0] != '-' && Paths.Split(s[1..], '-') == [head] + tail
    ensures Paths.Split(s, '-') == [[s[0]] + head] + tail
  {
  }

  lemma {:induction false} SplitWord(word: string, rest: string)
    requires '-' !in word
    ensures Paths.Split(word + "-" + rest, '-') == [word] + Paths.Split(rest, '-')
    decreases |word|
  {
    var s := word + "-" + rest;
    if word == [] {
      assert s == "-" + rest && s[1..] == rest;
    } else {
      assert s[1..] == word[1..] + "-" + rest;
      assert s[0] == word[0] && word[0] in word;
      SplitWord(word[1..], rest);
      SplitStep(s, word[1..], Paths.Split(rest, '-'));
      assert [s[0]] + word[1..] == word;
    }
  }

  lemma {:induction false} SplitJoined(parts: seq<string>)
    requires parts != [] && forall p | p in parts :: '-' !in p
    ensures Paths.Split(Joined(parts), '-') == parts
    decreases |parts|
  {
    assert parts[0] in parts;
    if |parts| == 1 {
      Paths.SplitLone(parts[0], '-');
    } else {
      assert forall p | p in parts[1..] :: p in parts;
      SplitJoined(parts[1..]);
      SplitWord(parts[0], Joined(parts[1..]));
    }
  }

  lemma {:induction false} SameNumerals(a: seq<nat>, b: seq<nat>)
    requires Numerals(a) == Numerals(b)
    ensures a == b
  {
    forall i | 0 <= i < |a|
      ensures a[i] == b[i]
    {
      assert Numerals(a)[i] == Numerals(b)[i];
      DecimalRoundTrip(a[i]);
      DecimalRoundTrip(b[i]);
    }
  }

  lemma NumeralsHaveNoDash(numbers: seq<nat>)
    ensures forall p | p in Numerals(numbers) :: '-' !in p
  {
    forall p | p in Numerals(numbers)
      ensures '-' !in p
    {
      assert AllDigits(p);
      assert !IsDigit('-');
    }
  }

  lemma PrintIsInjective(a: Sid, b: Sid)
    requires Print(a) == Print(b)
    ensures a == b
  {
    var x, y := Numerals(Numbers(a)), Numerals(Numbers(b));
    assert Print(a)[2..] == Joined(x) && Print(b)[2..] == Joined(y);
    NumeralsHaveNoDash(Numbers(a));
    NumeralsHaveNoDash(Numbers(b));
    SplitJoined(x);
    SplitJoined(y);
    SameNumerals(Numbers(a), Numbers(b));
    assert Numbers(a)[0] == a.revision && Numbers(a)[1] == a.authority && Numbers(a)[2..] == a.subs;
    assert Numbers(b)[0] == b.revision && Numbers(b)[1] == b.authority && Numbers(b)[2..] == b.subs;
  }

  /** The binary reader accepts exactly the byte strings whose length matches their count byte,
      and two accepted values print alike only if they are the same bytes. */
  lemma SidTextIsLossless(a: Bytes, b: Bytes)
    ensures SidText(Binary(a)).Ok? <==> |a| >= 8 && |a| == 8 + 4 * CountOf(a)
    ensures SidText(Binary(a)).Ok? && SidText(Binary(a)) == SidText(Binary(b)) ==> a == b
  {
    if SidText(Binary(a)).Ok? && SidText(Binary(a)) == SidText(Binary(b)) {
      PrintIsInjective(Decode(a).value, Decode(b).value);
      DecodeIsLossless(a);
      DecodeIsLossless(b);
    }
  }
}

/** The bounded directory collection: two paged phases under ceilings on entries, pages,
    memberships, trusts and run time, where whatever is left out is reported. */
module Directory {
  import opened Results
  import opened Octets

  datatype Phase = Users | Groups

  /** One directory object, with the identity evidence kept beside it. */
  datatype Entry = Entry(dn: string, isGroup: bool, name: string, members: seq<string>, sid: Option<string>,
                         primaryGroup: Option<int>)

  datatype TrustReading = Usable | NoPartner | BadAttributes

  /** One raw search result, by what reading it yields. */
  datatype Raw = Raw(
    dn: string,
    name: string,
    readable: bool,
    isTrust: bool,
    trust: TrustReading,
    members: seq<string>,
    ranged: bool,
    sid: Result<Option<string>>,
    primaryGroup: Result<Option<int>>,
    servicesReadable: bool)

  datatype Page = Page(entries: seq<Raw>, more: bool, referrals: nat)

  datatype Limits = Limits(maxEntries: nat, maxMemberships: nat, maxPages: nat, maxTrusts: nat, maxRuntime: int)

  /** The directory and the clock as they answer, call by call; `fold` is full case folding. */
  datatype Source = Source(pages: (Phase, nat) -> Result<Page>, clock: nat -> int, fold: string -> string)

  datatype Collected = Collected(
    entries: seq<Entry>,
    seen: set<string>,
    trusts: nat,
    memberships: nat,
    pages: nat,
    ticks: nat,
    truncated: bool)

  const NOTHING := Collected([], {}, 0, 0, 0, 0, false)

  // ------------------------------------------------------------------ what is listed

  function KnownOr<T>(r: Result<Option<T>>): Option<T> {
    if r.Ok? then r.value else None
  }

  function EntryOf(phase: Phase, raw: Raw): Entry {
    Entry(raw.dn, phase == Groups, raw.name, if phase == Groups then raw.members else [],
          KnownOr(raw.sid), if phase == Users then KnownOr(raw.primaryGroup) else None)
  }

  /** What a page delivers, in order: how often it refers elsewhere, then its raw results. */
  datatype Item = Referred(count: nat) | Delivered(phase: Phase, raw: Raw)
  {
    predicate IsTrust() {
      Delivered? && phase == Groups && raw.isTrust
    }

    predicate IsEntry() {
      Delivered? && !IsTrust()
    }

    /** An identity attribute is there but could not be read. */
    predicate UnknownEvidence() {
      Delivered? && (raw.sid.Rejected? || (phase == Users && raw.primaryGroup.Rejected?))
    }

    /** The directory held back some of the members. */
    predicate Ranged() {
      Delivered? && phase == Groups && raw.ranged
    }

    /** Reading it fails outright; that ends the whole collection. */
    predicate Unreadable() {
      IsEntry() && (!raw.readable || (phase == Users && !raw.servicesReadable))
    }
  }

  function Items(phase: Phase, raws: seq<Raw>): (items: seq<Item>)
    ensures |items| == |raws|
  {
    seq(|raws|, i requires 0 <= i < |raws| => Delivered(phase, raws[i]))
  }

  function PageItems(phase: Phase, page: Page): seq<Item> {
    [Referred(page.referrals)] + Items(phase, page.entries)
  }

  /** Everything the first `n` pages of a phase deliver. */
  function PagesRead(source: Source, phase: Phase, n: nat): seq<Item> {
    if n == 0 then []
    else
      var page := source.pages(phase, n - 1);
      PagesRead(source, phase, n - 1) + (if page.Ok? then PageItems(phase, page.value) else [])
  }

  /** The entries among them, trusts left aside. */
  function Listing(items: seq<Item>): seq<Entry>
    decreases |items|
  {
    if items == [] then []
    else
      var last := items[|items| - 1];
      Listing(items[..|items| - 1]) + (if last.IsEntry() then [EntryOf(last.phase, last.raw)] else [])
  }

  function TrustCount(items: seq<Item>): nat
    decreases |items|
  {
    if items == [] then 0
    else TrustCount(items[..|items| - 1]) + (if items[|items| - 1].IsTrust() then 1 else 0)
  }

  /** Nothing about this item is cut short, by itself: no referral, every trust usable, every
      member list whole. */
  predicate ItemWhole(item: Item) {
    match item
    case Referred(count) => count == 0
    case Delivered(_, raw) => if item.IsTrust() then raw.trust == Usable else !item.Ranged()
  }

  /** ... and its identity attributes are readable, unless its name was listed before. */
  predicate WholeAfter(fold: string -> string, before: seq<Item>, item: Item) {
    && ItemWhole(item)
    && (item.IsEntry() && item.UnknownEvidence() ==>
          fold(item.raw.dn) in Keys(fold, FirstListed(fold, Listing(before))))
  }

  predicate Whole(fold: string -> string, items: seq<Item>)
    decreases |items|
  {
    items == []
    || (&& Whole(fold, items[..|items| - 1])
        && WholeAfter(fold, items[..|items| - 1], items[|items| - 1]))
  }

  /** The first `n` pages were answered, each announcing another. */
  predicate AllMore(source: Source, phase: Phase, n: nat) {
    n == 0 || (AllMore(source, phase, n - 1) && source.pages(phase, n - 1).Ok? && source.pages(phase, n - 1).value.more)
  }

  /** The first `n` pages are the whole phase. */
  predicate WholePhase(source: Source, phase: Phase, n: nat) {
    n > 0 && AllMore(source, phase, n - 1) && source.pages(phase, n - 1).Ok? && !source.pages(phase, n - 1).value.more
  }

  function Keys(fold: string -> string, entries: seq<Entry>): (keys: set<string>)
    ensures forall e | e in entries :: fold(e.dn) in keys
  {
    set e | e in entries :: fold(e.dn)
  }

  /** Each distinguished name once, as it was first listed. */
  function FirstListed(fold: string -> string, stream: seq<Entry>): seq<Entry>
    decreases |stream|
  {
    if stream == [] then []
    else
      var before := FirstListed(fold, stream[..|stream| - 1]);
      var last := stream[|stream| - 1];
      if fold(last.dn) in Keys(fold, before) then before else before + [last]
  }

  lemma FirstListedOneMore(fold: string -> string, stream: seq<Entry>, e: Entry)
    ensures FirstListed(fold, stream + [e]) ==
      if fold(e.dn) in Keys(fold, FirstListed(fold, stream)) then FirstListed(fold, stream)
      else FirstListed(fold, stream) + [e]
  {
    assert (stream + [e])[..|stream|] == stream;
  }

  // ------------------------------------------------------------------------ ceilings

  function MemberCount(entries: seq<Entry>): nat
    decreases |entries|
  {
    if entries == [] then 0 else MemberCount(entries[..|entries| - 1]) + |entries[|entries| - 1].members|
  }

  ghost predicate DistinctKeys(fold: string -> string, entries: seq<Entry>) {
    forall i, j | 0 <= i < j < |entries| :: fold(entries[i].dn) != fold(entries[j].dn)
  }

  /** `seen` holds the name of every entry, no two entries share one, and `memberships` counts
      all their members. */
  predicate Indexed(fold: string -> string, entries: seq<Entry>, seen: set<string>, memberships: int)
    decreases |entries|
  {
    if entries == [] then seen == {} && memberships == 0
    else
      var last := entries[|entries| - 1];
      && fold(last.dn) in seen
      && Indexed(fold, entries[..|entries| - 1], seen - {fold(last.dn)}, memberships - |last.members|)
  }

  lemma {:induction false} IndexedMeaning(fold: string -> string, entries: seq<Entry>, seen: set<string>,
                                          memberships: int)
    ensures Indexed(fold, entries, seen, memberships) ==>
      seen == Keys(fold, entries) && DistinctKeys(fold, entries) && memberships == MemberCount(entries)
    decreases |entries|
  {
    if entries != [] && Indexed(fold, entries, seen, memberships) {
      var before, last := entries[..|entries| - 1], entries[|entries| - 1];
      IndexedMeaning(fold, before, seen - {fold(last.dn)}, memberships - |last.members|);
      KeysOneMore(fold, before, last);
      assert entries == before + [last];
      forall i | 0 <= i < |before|
        ensures fold(entries[i].dn) != fold(last.dn)
      {
        assert before[i] in before;
      }
    }
  }

  lemma KeysOneMore(fold: string -> string, entries: seq<Entry>, e: Entry)
    ensures Keys(fold, entries + [e]) == Keys(fold, entries) + {fold(e.dn)}
  {
    assert (entries + [e])[|entries|] == e;
    assert forall x | x in entries :: x in entries + [e];
  }

  ghost predicate WithinCeilings(source: Source, l: Limits, s: Collected) {
    && |s.entries| <= l.maxEntries
    && s.memberships <= l.maxMemberships
    && s.trusts <= l.maxTrusts
    && s.pages <= l.maxPages
    && Indexed(source.fold, s.entries, s.seen, s.memberships)
  }

  /** What one more item makes of the entries, as long as nothing is cut. */
  function NextEntries(fold: string -> string, entries: seq<Entry>, item: Item): seq<Entry> {
    if !item.IsEntry() || fold(item.raw.dn) in Keys(fold, entries) then entries
    else entries + [EntryOf(item.phase, item.raw)]
  }

  /** What a reading without any loss holds. */
  datatype Reading = Reading(entries: seq<Entry>, trusts: nat)

  /** Nothing about this item is lost when these entries were read before it. */
  predicate TakenWhole(fold: string -> string, entries: seq<Entry>, item: Item) {
    ItemWhole(item) && (item.IsEntry() && item.UnknownEvidence() ==> fold(item.raw.dn) in Keys(fold, entries))
  }

  /** The reading of these items, if it loses nothing. */
  function ReadingOf(fold: string -> string, items: seq<Item>): Option<Reading>
    decreases |items|
  {
    if items == [] then Some(Reading([], 0))
    else
      var before := ReadingOf(fold, items[..|items| - 1]);
      var last := items[|items| - 1];
      if before.None? || !TakenWhole(fold, before.value.entries, last) then None
      else Some(Reading(NextEntries(fold, before.value.entries, last),
                        before.value.trusts + (if last.IsTrust() then 1 else 0)))
  }

  /** A reading loses nothing exactly when every item is whole in its place; it then holds every
      name as first listed, and counts every trust. */
  lemma {:induction false} ReadingMeaning(fold: string -> string, items: seq<Item>)
    ensures ReadingOf(fold, items).Some? <==> Whole(fold, items)
    ensures ReadingOf(fold, items).Some? ==>
      ReadingOf(fold, items).value == Reading(FirstListed(fold, Listing(items)), TrustCount(items))
    decreases |items|
  {
    if items != [] {
      var before, last := items[..|items| - 1], items[|items| - 1];
      ReadingMeaning(fold, before);
      assert items == before + [last];
      ListingSteps(fold, before, last);
    }
  }

  /** The entries after one more item. */
  lemma ListingSteps(fold: string -> string, before: seq<Item>, last: Item)
    ensures FirstListed(fold, Listing(before + [last])) == NextEntries(fold, FirstListed(fold, Listing(before)), last)
  {
    assert (before + [last])[..|before|] == before;
    if last.IsEntry() {
      FirstListedOneMore(fold, Listing(before), EntryOf(last.phase, last.raw));
    } else {
      assert Listing(before + [last]) == Listing(before);
    }
  }

  /** As long as nothing was reported missing, nothing delivered so far is missing. */
  predicate NothingMissing(source: Source, s: Collected, items: seq<Item>) {
    Holds(s, ReadingOf(source.fold, items))
  }

  /** An unreported state holds this reading, and the reading loses nothing. */
  predicate Holds(s: Collected, reading: Option<Reading>) {
    !s.truncated ==> reading == Some(Reading(s.entries, s.trusts))
  }

  /** The step from `s` to `t` reports whatever the item loses. */
  predicate Reports(source: Source, s: Collected, t: Collected, item: Item) {
    && (s.truncated ==> t.truncated)
    && (!t.truncated ==>
          && TakenWhole(source.fold, s.entries, item)
          && t.trusts == s.trusts + (if item.IsTrust() then 1 else 0)
          && t.entries == NextEntries(source.fold, s.entries, item))
  }

  lemma ItemTaken(source: Source, s: Collected, t: Collected, items: seq<Item>, item: Item)
    requires NothingMissing(source, s, items) && Reports(source, s, t, item)
    ensures NothingMissing(source, t, items + [item])
  {
    assert (items + [item])[..|items|] == items;
  }

  lemma EntryAdded(source: Source, l: Limits, s: Collected, e: Entry)
    requires WithinCeilings(source, l, s) && source.fold(e.dn) !in s.seen
    requires |s.entries| < l.maxEntries && s.memberships + |e.members| <= l.maxMemberships
    ensures WithinCeilings(source, l, s.(entries := s.entries + [e], seen := s.seen + {source.fold(e.dn)},
                                         memberships := s.memberships + |e.members|))
  {
    assert (s.entries + [e])[..|s.entries|] == s.entries;
    assert s.seen + {source.fold(e.dn)} - {source.fold(e.dn)} == s.seen;
  }

  // ---------------------------------------------------------------------- one result

  /** A trust object: kept within its ceiling, and reported whenever it cannot be used. */
  method IngestTrust(source: Source, l: Limits, item: Item, s: Collected) returns (t: Collected)
    requires item.IsTrust() && s.trusts <= l.maxTrusts
    ensures t == s.(trusts := t.trusts, truncated := t.truncated) && t.trusts <= l.maxTrusts
    ensures Reports(source, s, t, item)
  {
    t := s;
    if s.trusts >= l.maxTrusts || item.raw.trust != Usable {
      t := t.(truncated := true);
    } else {
      t := t.(trusts := t.trusts + 1);
    }
  }

  /** One entry: duplicates are skipped; held-back members, cut ceilings and unreadable evidence
      are reported. `stop` ends the page, and only ever after a report. */
  method IngestEntry(source: Source, l: Limits, item: Item, s: Collected) returns (t: Collected, stop: bool)
    requires item.IsEntry() && WithinCeilings(source, l, s)
    ensures WithinCeilings(source, l, t)
    ensures Reports(source, s, t, item)
    ensures stop ==> t.truncated
    ensures t.pages == s.pages && t.ticks == s.ticks
  {
    t, stop := s, false;
    if item.Ranged() {
      t := t.(truncated := true);
    }
    SeenNames(source, l, s, item.raw.dn);
    if source.fold(item.raw.dn) in t.seen {
      return;
    }
    if |t.entries| >= l.maxEntries {
      return t.(truncated := true), true;
    }
    t, stop := KeepEntry(source, l, item, t);
  }

  lemma SeenNames(source: Source, l: Limits, s: Collected, dn: string)
    requires WithinCeilings(source, l, s)
    ensures source.fold(dn) in s.seen <==> source.fold(dn) in Keys(source.fold, s.entries)
  {
    IndexedMeaning(source.fold, s.entries, s.seen, s.memberships);
  }

  /** A name not listed before, with room for at least one more entry. */
  method KeepEntry(source: Source, l: Limits, item: Item, s: Collected) returns (t: Collected, stop: bool)
    requires item.IsEntry() && WithinCeilings(source, l, s)
    requires source.fold(item.raw.dn) !in s.seen && |s.entries| < l.maxEntries
    ensures WithinCeilings(source, l, t)
    ensures s.truncated || item.UnknownEvidence() ==> t.truncated
    ensures !t.truncated ==> t.trusts == s.trusts && t.entries == s.entries + [EntryOf(item.phase, item.raw)]
    ensures stop ==> t.truncated
    ensures t.pages == s.pages && t.ticks == s.ticks
  {
    var kept := EntryOf(item.phase, item.raw);
    t, stop := s, false;
    if kept.isGroup && kept.members != [] {
      var remaining := l.maxMemberships - t.memberships;
      if remaining <= 0 {
        return t.(truncated := true), true;
      }
      if |kept.members| > remaining {
        kept := kept.(members := kept.members[..remaining]);
        t := t.(truncated := true);
      }
    }
    EntryAdded(source, l, t, kept);
    t := t.(entries := t.entries + [kept], seen := t.seen + {source.fold(kept.dn)},
            memberships := t.memberships + |kept.members|);
    if item.UnknownEvidence() {
      t := t.(truncated := true);
    }
    stop := t.truncated && (|t.entries| >= l.maxEntries || t.memberships >= l.maxMemberships);
  }

  method IngestRaw(source: Source, l: Limits, item: Item, s: Collected) returns (r: Result<Collected>, stop: bool)
    requires item.Delivered? && WithinCeilings(source, l, s)
    ensures r.Ok? ==>
      && WithinCeilings(source, l, r.value)
      && Reports(source, s, r.value, item)
      && (stop ==> r.value.truncated)
      && r.value.pages == s.pages && r.value.ticks == s.ticks
    ensures r.Rejected? <==> item.Unreadable()
  {
    if item.IsTrust() {
      var t := IngestTrust(source, l, item, s);
      return Ok(t), false;
    }
    if item.Unreadable() {
      return Rejected, false;
    }
    var t;
    t, stop := IngestEntry(source, l, item, s);
    return Ok(t), stop;
  }

  lemma ItemsOneMore(phase: Phase, raws: seq<Raw>, i: nat, items: seq<Item>)
    requires i < |raws|
    ensures items + Items(phase, raws[..i + 1]) == items + Items(phase, raws[..i]) + [Delivered(phase, raws[i])]
  {
    assert Items(phase, raws[..i + 1]) == Items(phase, raws[..i]) + [Delivered(phase, raws[i])];
  }

  /** Once something was reported, whatever follows is no longer promised. */
  lemma ReportedMissesNothing(source: Source, t: Collected, items: seq<Item>)
    requires t.truncated
    ensures NothingMissing(source, t, items)
  {
  }

  /** The results of one page. A page is left early only after a report. */
  method IngestPage(source: Source, l: Limits, phase: Phase, raws: seq<Raw>, s: Collected, ghost items: seq<Item>)
    returns (r: Result<Collected>)
    requires WithinCeilings(source, l, s) && NothingMissing(source, s, items)
    ensures r.Ok? ==> WithinCeilings(source, l, r.value)
    ensures r.Ok? ==> NothingMissing(source, r.value, items + Items(phase, raws))
    ensures r.Ok? && s.truncated ==> r.value.truncated
    ensures r.Ok? ==> r.value.pages == s.pages && r.value.ticks == s.ticks
  {
    var t := s;
    var i := 0;
    var stop := false;
    assert items + Items(phase, raws[..0]) == items;
    while i < |raws| && !stop
      invariant 0 <= i <= |raws|
      invariant WithinCeilings(source, l, t)
      invariant NothingMissing(source, t, items + Items(phase, raws[..i]))
      invariant s.truncated || stop ==> t.truncated
      invariant t.pages == s.pages && t.ticks == s.ticks
    {
      var ingested;
      ingested, stop := IngestNext(source, l, phase, raws, i, t, items);
      if ingested.Rejected? {
        return Rejected;
      }
      t := ingested.value;
      i := i + 1;
    }
    if stop {
      ReportedMissesNothing(source, t, items + Items(phase, raws));
    } else {
      assert raws[..i] == raws;
    }
    return Ok(t);
  }

  method IngestNext(source: Source, l: Limits, phase: Phase, raws: seq<Raw>, i: nat, s: Collected,
                    ghost items: seq<Item>)
    returns (r: Result<Collected>, stop: bool)
    requires i < |raws| && WithinCeilings(source, l, s)
    requires NothingMissing(source, s, items + Items(phase, raws[..i]))
    ensures r.Ok? ==>
      && WithinCeilings(source, l, r.value)
      && NothingMissing(source, r.value, items + Items(phase, raws[..i + 1]))
      && (s.truncated || stop ==> r.value.truncated)
      && r.value.pages == s.pages && r.value.ticks == s.ticks
    ensures r.Rejected? <==> Delivered(phase, raws[i]).Unreadable()
  {
    r, stop := IngestRaw(source, l, Delivered(phase, raws[i]), s);
    if r.Ok? {
      ItemTaken(source, s, r.value, items + Items(phase, raws[..i]), Delivered(phase, raws[i]));
      ItemsOneMore(phase, raws, i, items);
    }
  }

  // -------------------------------------------------------------------------- phases

  predicate Full(l: Limits, s: Collected) {
    |s.entries| >= l.maxEntries || s.memberships >= l.maxMemberships || s.pages >= l.maxPages
  }

  /** One clock reading. */
  method OutOfTime(source: Source, l: Limits, started: int, s: Collected) returns (late: bool, t: Collected)
    ensures t == s.(ticks := s.ticks + 1)
  {
    late := source.clock(s.ticks) - started >= l.maxRuntime;
    t := s.(ticks := s.ticks + 1);
  }

  /** `after(n)` is the reading of `items` and of the phase's first `n` pages. */
  ghost predicate AtPage(source: Source, phase: Phase, items: seq<Item>, after: nat -> Option<Reading>, n: nat) {
    after(n) == ReadingOf(source.fold, items + PagesRead(source, phase, n))
  }

  ghost predicate Follows(source: Source, phase: Phase, items: seq<Item>, after: nat -> Option<Reading>) {
    forall n: nat :: AtPage(source, phase, items, after, n)
  }

  /** `n` pages of a phase were read, each announcing another, and nothing went missing silently. */
  ghost predicate Paged(source: Source, l: Limits, phase: Phase, t: Collected, after: nat -> Option<Reading>, n: nat) {
    WithinCeilings(source, l, t) && Holds(t, after(n)) && AllMore(source, phase, n)
  }

  /** How a phase may end: with a report, or with its last page read. */
  ghost predicate PhaseEnded(source: Source, l: Limits, phase: Phase, t: Collected, after: nat -> Option<Reading>,
                             n: nat)
  {
    WithinCeilings(source, l, t) && Holds(t, after(n)) && (!t.truncated ==> WholePhase(source, phase, n))
  }

  datatype PageOutcome = Failed | Ended(state: Collected) | Continue(state: Collected)

  /** What holds after `n` turns of the page loop, however the last one ended. */
  ghost predicate OutcomeSound(source: Source, l: Limits, phase: Phase, after: nat -> Option<Reading>, o: PageOutcome,
                               n: nat)
  {
    match o
    case Failed => true
    case Ended(state) => PhaseEnded(source, l, phase, state, after, n)
    case Continue(state) => Paged(source, l, phase, state, after, n)
  }

  method TakePage(source: Source, l: Limits, phase: Phase, page: Page, s: Collected, n: nat, ghost items: seq<Item>)
    returns (r: Result<Collected>)
    requires WithinCeilings(source, l, s) && s.pages < l.maxPages
    requires NothingMissing(source, s, items + PagesRead(source, phase, n))
    requires source.pages(phase, n) == Ok(page)
    ensures r.Ok? ==> WithinCeilings(source, l, r.value)
    ensures r.Ok? ==> NothingMissing(source, r.value, items + PagesRead(source, phase, n + 1))
    ensures r.Ok? ==> r.value.pages == s.pages + 1
    ensures r.Ok? && s.truncated ==> r.value.truncated
  {
    var t := s.(pages := s.pages + 1, truncated := s.truncated || page.referrals > 0);
    ItemTaken(source, s, t, items + PagesRead(source, phase, n), Referred(page.referrals));
    OnePageMore(source, phase, n, items);
    r := IngestPage(source, l, phase, page.entries, t,
                    items + PagesRead(source, phase, n) + [Referred(page.referrals)]);
  }

  /** One turn of the page loop. */
  method ReadPage(source: Source, l: Limits, phase: Phase, started: int, s: Collected, n: nat,
                  ghost items: seq<Item>, ghost after: nat -> Option<Reading>)
    returns (o: PageOutcome)
    requires OutcomeSound(source, l, phase, after, Continue(s), n) && Follows(source, phase, items, after)
    ensures OutcomeSound(source, l, phase, after, o, n + 1)
    ensures o.Continue? ==> o.state.pages == s.pages + 1 <= l.maxPages
    ensures !o.Failed? && s.truncated ==> o.state.truncated
  {
    assert AtPage(source, phase, items, after, n) && AtPage(source, phase, items, after, n + 1);
    if |s.entries| >= l.maxEntries || s.pages >= l.maxPages {
      return Ended(s.(truncated := true));
    }
    var late, t := OutOfTime(source, l, started, s);
    if late {
      return Ended(t.(truncated := true));
    }
    var answer := source.pages(phase, n);
    if answer.Rejected? {
      return Failed;
    }
    var page := answer.value;
    var ingested := TakePage(source, l, phase, page, t, n, items);
    if ingested.Rejected? {
      return Failed;
    }
    t := ingested.value;
    if t.truncated && Full(l, t) {
      return Ended(t);
    }
    late, t := OutOfTime(source, l, started, t);
    if late {
      if page.more {
        t := t.(truncated := true);
      }
      return Ended(t);
    }
    if !page.more {
      return Ended(t);
    }
    return Continue(t);
  }

  lemma OnePageMore(source: Source, phase: Phase, n: nat, items: seq<Item>)
    requires source.pages(phase, n).Ok?
    ensures var page := source.pages(phase, n).value;
      items + PagesRead(source, phase, n + 1)
        == items + PagesRead(source, phase, n) + [Referred(page.referrals)] + Items(phase, page.entries)
  {
  }

  /** The page loop of one phase. */
  method ReadPages(source: Source, l: Limits, phase: Phase, started: int, s: Collected,
                   ghost items: seq<Item>, ghost after: nat -> Option<Reading>)
    returns (outcome: PageOutcome, ghost n: nat)
    requires OutcomeSound(source, l, phase, after, Continue(s), 0) && Follows(source, phase, items, after)
    requires s.pages <= l.maxPages
    ensures OutcomeSound(source, l, phase, after, outcome, n) && !outcome.Continue?
    ensures !outcome.Failed? && s.truncated ==> outcome.state.truncated
  {
    var fetched := 0;
    outcome, n := Continue(s), 0;
    while outcome.Continue?
      invariant n == fetched && OutcomeSound(source, l, phase, after, outcome, n)
      invariant outcome.Continue? ==> s.pages + fetched == outcome.state.pages <= l.maxPages
      invariant !outcome.Failed? && s.truncated ==> outcome.state.truncated
      decreases l.maxPages + 1 - s.pages - fetched, if outcome.Continue? then 1 else 0
    {
      outcome := ReadPage(source, l, phase, started, outcome.state, fetched, items, after);
      fetched := fetched + 1;
      n := fetched;
    }
  }

  /** One phase, to its reported or real end. */
  method CollectPhase(source: Source, l: Limits, phase: Phase, started: int, s: Collected, ghost items: seq<Item>)
    returns (r: Result<Collected>, ghost n: nat)
    requires WithinCeilings(source, l, s) && NothingMissing(source, s, items)
    ensures r.Ok? ==>
      && WithinCeilings(source, l, r.value)
      && NothingMissing(source, r.value, items + PagesRead(source, phase, n))
      && (!r.value.truncated ==> WholePhase(source, phase, n))
      && (s.truncated ==> r.value.truncated)
  {
    ghost var after := (n: nat) => ReadingOf(source.fold, items + PagesRead(source, phase, n));
    assert items + PagesRead(source, phase, 0) == items;
    var outcome;
    outcome, n := ReadPages(source, l, phase, started, s, items, after);
    r := if outcome.Failed? then Rejected else Ok(outcome.state);
  }

  /** Everything both phases deliver, users first. */
  function WholeReading(source: Source, users: nat, groups: nat): seq<Item> {
    PagesRead(source, Users, users) + PagesRead(source, Groups, groups)
  }

  /** Both phases were read to their last page, and nothing they deliver is missing. */
  ghost predicate NothingLost(source: Source, s: Collected, users: nat, groups: nat) {
    && WholePhase(source, Users, users) && WholePhase(source, Groups, groups)
    && s.entries == FirstListed(source.fold, Listing(WholeReading(source, users, groups)))
    && s.trusts == TrustCount(WholeReading(source, users, groups))
    && Whole(source.fold, WholeReading(source, users, groups))
  }

  /** `collect`, up to the end of paging. The ceilings always hold; and if the result is not
      marked truncated, then both phases were read to their last page, every distinguished name
      listed on any page is there exactly once, as first listed and with all its members and
      readable evidence, every trust was used, and no page referred elsewhere. */
  method Collect(source: Source, l: Limits) returns (r: Result<Collected>, ghost users: nat, ghost groups: nat)
    ensures r.Ok? ==>
      && WithinCeilings(source, l, r.value) && DistinctKeys(source.fold, r.value.entries)
      && MemberCount(r.value.entries) == r.value.memberships
    ensures r.Ok? && !r.value.truncated ==> NothingLost(source, r.value, users, groups)
  {
    users, groups := 0, 0;
    var started := source.clock(0);
    var s := NOTHING.(ticks := 1);
    var first;
    first, users := CollectPhase(source, l, Users, started, s, []);
    if first.Rejected? {
      return Rejected, users, groups;
    }
    s := first.value;
    assert [] + PagesRead(source, Users, users) == PagesRead(source, Users, users);
    if s.truncated {
      var late;
      late, s := OutOfTime(source, l, started, s);
      if Full(l, s) || late {
        IndexedMeaning(source.fold, s.entries, s.seen, s.memberships);
        return Ok(s), users, groups;
      }
    }
    r, groups := CollectPhase(source, l, Groups, started, s, PagesRead(source, Users, users));
    if r.Ok? {
      IndexedMeaning(source.fold, r.value.entries, r.value.seen, r.value.memberships);
      ReadingMeaning(source.fold, WholeReading(source, users, groups));
    }
  }

  // ---------------------------------------------------------- what an untruncated result means

  /** An item of a whole reading is whole after the items before it. */
  lemma {:induction false} WholeAt(fold: string -> string, items: seq<Item>, i: nat)
    requires Whole(fold, items) && i < |items|
    ensures WholeAfter(fold, items[..i], items[i])
    decreases |items|
  {
    var m := |items| - 1;
    if i < m {
      WholeAt(fold, items[..m], i);
      assert items[..m][..i] == items[..i];
    }
  }

  lemma {:induction false} PageDelivered(source: Source, phase: Phase, n: nat, k: nat)
    requires k < n && source.pages(phase, k).Ok?
    ensures forall item | item in PageItems(phase, source.pages(phase, k).value) :: item in PagesRead(source, phase, n)
    decreases n
  {
    if k < n - 1 {
      PageDelivered(source, phase, n - 1, k);
    }
  }

  predicate RawWhole(phase: Phase, raw: Raw) {
    phase == Groups ==> if raw.isTrust then raw.trust == Usable else !raw.ranged
  }

  /** On every page that was read there is no referral, every trust is usable, and every group's
      member list is whole. */
  lemma EveryPageWhole(source: Source, s: Collected, users: nat, groups: nat, phase: Phase, k: nat)
    requires NothingLost(source, s, users, groups)
    requires k < if phase == Users then users else groups
    requires source.pages(phase, k).Ok?
    ensures var page := source.pages(phase, k).value;
      page.referrals == 0 && forall raw | raw in page.entries :: RawWhole(phase, raw)
  {
    var page := source.pages(phase, k).value;
    var items := WholeReading(source, users, groups);
    PageDelivered(source, phase, if phase == Users then users else groups, k);
    assert forall item | item in PageItems(phase, page) :: item in items;
    WholeItems(source.fold, items);
    PageWhole(phase, page);
  }

  lemma WholeItems(fold: string -> string, items: seq<Item>)
    requires Whole(fold, items)
    ensures forall item | item in items :: ItemWhole(item)
  {
    forall item | item in items
      ensures ItemWhole(item)
    {
      var i :| 0 <= i < |items| && items[i] == item;
      WholeAt(fold, items, i);
    }
  }

  lemma PageWhole(phase: Phase, page: Page)
    requires forall item | item in PageItems(phase, page) :: ItemWhole(item)
    ensures page.referrals == 0 && forall raw | raw in page.entries :: RawWhole(phase, raw)
  {
    assert PageItems(phase, page)[0] == Referred(page.referrals);
    assert ItemWhole(Referred(page.referrals));
    forall raw | raw in page.entries
      ensures RawWhole(phase, raw)
    {
      var j :| 0 <= j < |page.entries| && page.entries[j] == raw;
      assert PageItems(phase, page)[j + 1] == Delivered(phase, raw);
      assert ItemWhole(Delivered(phase, raw));
    }
  }

  /** This result lists the entry as it stands: nothing held back, nothing unreadable. */
  predicate ReadFrom(item: Item, e: Entry) {
    && item.IsEntry() && e == EntryOf(item.phase, item.raw)
    && !item.Ranged() && !item.UnknownEvidence()
  }

  /** In particular no listed name is lost. */
  lemma {:induction false} FirstListedCovers(fold: string -> string, stream: seq<Entry>, i: nat)
    requires i < |stream|
    ensures exists e | e in FirstListed(fold, stream) :: fold(e.dn) == fold(stream[i].dn)
    ensures (forall j | 0 <= j < i :: fold(stream[j].dn) != fold(stream[i].dn)) ==>
      stream[i] in FirstListed(fold, stream)
    decreases |stream|
  {
    var m := |stream| - 1;
    var before := FirstListed(fold, stream[..m]);
    if i < m {
      FirstListedCovers(fold, stream[..m], i);
      assert forall e | e in before :: e in FirstListed(fold, stream);
    } else {
      if forall j | 0 <= j < i :: fold(stream[j].dn) != fold(stream[i].dn) {
        FirstListedFrom(fold, stream[..m]);
        assert fold(stream[i].dn) !in Keys(fold, before);
      }
      if fold(stream[i].dn) !in Keys(fold, before) {
        assert FirstListed(fold, stream)[|before|] == stream[i];
      }
    }
  }

  /** Nothing is invented either. */
  lemma {:induction false} FirstListedFrom(fold: string -> string, stream: seq<Entry>)
    ensures forall e | e in FirstListed(fold, stream) :: e in stream
    decreases |stream|
  {
    if stream != [] {
      FirstListedFrom(fold, stream[..|stream| - 1]);
    }
  }

  /** Every entry of a whole reading was read, complete with members and evidence, from one
      delivered result. */
  lemma {:induction false} EntriesAreWhole(fold: string -> string, items: seq<Item>)
    requires Whole(fold, items)
    ensures forall e | e in FirstListed(fold, Listing(items)) :: exists item | item in items :: ReadFrom(item, e)
    decreases |items|
  {
    if items != [] {
      var m := |items| - 1;
      var before, last := items[..m], items[m];
      EntriesAreWhole(fold, before);
      assert items == before + [last];
      ListingSteps(fold, before, last);
      forall e | e in FirstListed(fold, Listing(items))
        ensures exists item | item in items :: ReadFrom(item, e)
      {
        if e in FirstListed(fold, Listing(before)) {
          var item :| item in before && ReadFrom(item, e);
          assert item in items;
        } else {
          assert ReadFrom(last, e);
        }
      }
    }
  }

  // ------------------------------------------------------------- primary-group memberships

  function BeforeLastDash(sid: string): Option<string>
    decreases |sid|
  {
    if sid == [] then None
    else if sid[|sid| - 1] == '-' then Some(sid[..|sid| - 1])
    else BeforeLastDash(sid[..|sid| - 1])
  }

  function DomainOf(sid: string): string {
    var cut := BeforeLastDash(sid);
    if cut.Some? then cut.value else sid
  }

  function IntText(n: int): string {
    if n < 0 then "-" + Decimal(-n) else Decimal(n)
  }

  /** Of several groups with one SID the last one collected counts. */
  function GroupWithSid(entries: seq<Entry>, sid: string): Option<Entry>
    decreases |entries|
  {
    if entries == [] then None
    else
      var last := entries[|entries| - 1];
      if last.isGroup && last.sid == Some(sid) then Some(last) else GroupWithSid(entries[..|entries| - 1], sid)
  }

  predicate HasPrimaryEvidence(e: Entry) {
    !e.isGroup && e.sid.Some? && e.primaryGroup.Some?
  }

  function PrimaryGroupOf(entries: seq<Entry>, e: Entry): Option<Entry>
    requires HasPrimaryEvidence(e)
  {
    GroupWithSid(entries, DomainOf(e.sid.value) + "-" + IntText(e.primaryGroup.value))
  }

  type Membership = (string, string)

  function ExplicitMemberships(fold: string -> string, entries: seq<Entry>): set<Membership> {
    set g, m | g in entries && g.isGroup && m in g.members :: (fold(m), fold(g.dn))
  }

  /** The membership one entry's primary group adds, unless it is listed explicitly. */
  function PrimaryMembership(fold: string -> string, entries: seq<Entry>, e: Entry): seq<Membership> {
    if !HasPrimaryEvidence(e) || PrimaryGroupOf(entries, e).None? then []
    else
      var pair := (fold(e.dn), fold(PrimaryGroupOf(entries, e).value.dn));
      if pair in ExplicitMemberships(fold, entries) then [] else [pair]
  }

  /** What each of these entries contributes, in order. */
  function Gathered(part: Entry -> seq<Membership>, members: seq<Entry>): seq<Membership>
    decreases |members|
  {
    if members == [] then [] else Gathered(part, members[..|members| - 1]) + part(members[|members| - 1])
  }

  function PrimaryMemberships(fold: string -> string, entries: seq<Entry>, members: seq<Entry>): seq<Membership> {
    Gathered(e => PrimaryMembership(fold, entries, e), members)
  }

  predicate PrimaryGroupKnown(entries: seq<Entry>, e: Entry) {
    HasPrimaryEvidence(e) ==> PrimaryGroupOf(entries, e).Some?
  }

  lemma PrimaryOneMore(fold: string -> string, entries: seq<Entry>, members: seq<Entry>, i: nat)
    requires i < |members|
    ensures PrimaryMemberships(fold, entries, members[..i + 1]) ==
      PrimaryMemberships(fold, entries, members[..i]) + PrimaryMembership(fold, entries, members[i])
  {
    GatheredOneMore(e => PrimaryMembership(fold, entries, e), members, i);
  }

  lemma GatheredOneMore(part: Entry -> seq<Membership>, members: seq<Entry>, i: nat)
    requires i < |members|
    ensures Gathered(part, members[..i + 1]) == Gathered(part, members[..i]) + part(members[i])
  {
    assert members[..i + 1][..i] == members[..i];
  }

  /** Explicit and supplemental memberships together stay within the one ceiling; and without a
      report every identity's primary group was found and its membership recorded. */
  method AddPrimaryGroups(source: Source, l: Limits, s: Collected) returns (added: seq<Membership>, truncated: bool)
    requires s.memberships <= l.maxMemberships
    ensures s.memberships + |added| <= l.maxMemberships
    ensures s.truncated ==> truncated
    ensures !truncated ==>
      && added == PrimaryMemberships(source.fold, s.entries, s.entries)
      && forall i | 0 <= i < |s.entries| :: PrimaryGroupKnown(s.entries, s.entries[i])
  {
    added, truncated := [], s.truncated;
    for i := 0 to |s.entries|
      invariant s.memberships + |added| <= l.maxMemberships
      invariant s.truncated ==> truncated
      invariant !truncated ==> PrimariesAdded(source.fold, s.entries, i, added)
    {
      ghost var before := added;
      var complete, stop;
      added, complete, stop := AddPrimaryGroup(source, l, s, s.entries[i], added);
      if !truncated && complete {
        OnePrimaryMore(source.fold, s.entries, i, before, added);
      }
      truncated := truncated || !complete;
      if stop {
        return;
      }
    }
    if !truncated {
      AllPrimariesAdded(source.fold, s.entries, added);
    }
  }

  lemma OnePrimaryMore(fold: string -> string, entries: seq<Entry>, i: nat, added: seq<Membership>,
                       more: seq<Membership>)
    requires i < |entries| && PrimariesAdded(fold, entries, i, added)
    requires PrimaryGroupKnown(entries, entries[i]) && more == added + PrimaryMembership(fold, entries, entries[i])
    ensures PrimariesAdded(fold, entries, i + 1, more)
  {
    PrimaryOneMore(fold, entries, entries, i);
  }

  lemma AllPrimariesAdded(fold: string -> string, entries: seq<Entry>, added: seq<Membership>)
    requires PrimariesAdded(fold, entries, |entries|, added)
    ensures added == PrimaryMemberships(fold, entries, entries)
    ensures forall i | 0 <= i < |entries| :: PrimaryGroupKnown(entries, entries[i])
  {
    assert entries[..|entries|] == entries;
  }

  ghost predicate PrimariesAdded(fold: string -> string, entries: seq<Entry>, n: nat, added: seq<Membership>)
    requires n <= |entries|
  {
    && added == PrimaryMemberships(fold, entries, entries[..n])
    && forall i | 0 <= i < n :: PrimaryGroupKnown(entries, entries[i])
  }

  /** One identity's primary-group membership: not complete if the group is unknown or the
      ceiling is reached, and at the ceiling the pass stops. */
  method AddPrimaryGroup(source: Source, l: Limits, s: Collected, e: Entry, added: seq<Membership>)
    returns (more: seq<Membership>, complete: bool, stop: bool)
    requires s.memberships + |added| <= l.maxMemberships
    ensures s.memberships + |more| <= l.maxMemberships
    ensures complete ==>
      PrimaryGroupKnown(s.entries, e) && more == added + PrimaryMembership(source.fold, s.entries, e)
    ensures stop ==> !complete
  {
    more, complete, stop := added, true, false;
    if HasPrimaryEvidence(e) {
      var group := PrimaryGroupOf(s.entries, e);
      if group.None? {
        complete := false;
      } else {
        var pair := (source.fold(e.dn), source.fold(group.value.dn));
        if pair !in ExplicitMemberships(source.fold, s.entries) {
          if s.memberships + |added| >= l.maxMemberships {
            return added, false, true;
          }
          more := added + [pair];
        }
      }
    }
  }

  /** The membership an identity has by its primary group. */
  function PrimaryPair(fold: string -> string, entries: seq<Entry>, e: Entry): Membership
    requires HasPrimaryEvidence(e) && PrimaryGroupOf(entries, e).Some?
  {
    (fold(e.dn), fold(PrimaryGroupOf(entries, e).value.dn))
  }

  /** Without a report no primary-group membership is lost: it is listed explicitly or added. */
  lemma PrimaryMembershipKept(fold: string -> string, entries: seq<Entry>, members: seq<Entry>, i: nat)
    requires i < |members| && HasPrimaryEvidence(members[i]) && PrimaryGroupOf(entries, members[i]).Some?
    ensures var pair := PrimaryPair(fold, entries, members[i]);
      pair in ExplicitMemberships(fold, entries) || pair in PrimaryMemberships(fold, entries, members)
  {
    OwnMembershipKept(fold, entries, members[i]);
    ContributionKept(e => PrimaryMembership(fold, entries, e), members, i);
  }

  lemma OwnMembershipKept(fold: string -> string, entries: seq<Entry>, e: Entry)
    requires HasPrimaryEvidence(e) && PrimaryGroupOf(entries, e).Some?
    ensures var pair := PrimaryPair(fold, entries, e);
      pair in ExplicitMemberships(fold, entries) || pair in PrimaryMembership(fold, entries, e)
  {
  }

  lemma {:induction false} ContributionKept(part: Entry -> seq<Membership>, members: seq<Entry>, i: nat)
    requires i < |members|
    ensures Contributed(part(members[i]), Gathered(part, members))
    decreases |members|
  {
    var last := |members| - 1;
    GatheredOneMore(part, members, last);
    assert members[..last + 1] == members;
    if i < last {
      ContributionKept(part, members[..last], i);
    }
  }

  predicate Contributed(part: seq<Membership>, whole: seq<Membership>) {
    forall m | m in part :: m in whole
  }

  // ----------------------------------------------------------------- the whole collection

  /** What `collect` hands over, as far as it is modelled. */
  datatype Collection = Collection(collected: Collected, added: seq<Membership>, truncated: bool)

  /** All members of all collected groups, explicit or by primary group, within one ceiling. */
  ghost predicate WithinAllCeilings(source: Source, l: Limits, c: Collection) {
    && WithinCeilings(source, l, c.collected) && DistinctKeys(source.fold, c.collected.entries)
    && MemberCount(c.collected.entries) + |c.added| <= l.maxMemberships
  }

  /** `collect`. The ceilings hold in every case, the one on memberships for explicit and
      primary-group memberships together. A result that is not marked truncated holds everything
      both phases deliver, each entry with its full member list and readable evidence, and every
      identity's primary-group membership. */
  method CollectAll(source: Source, l: Limits) returns (r: Result<Collection>, ghost users: nat, ghost groups: nat)
    ensures r.Ok? ==> WithinAllCeilings(source, l, r.value)
    ensures r.Ok? && !r.value.truncated ==>
      && NothingLost(source, r.value.collected, users, groups)
      && EntriesRead(r.value.collected.entries, WholeReading(source, users, groups))
      && r.value.added == PrimaryMemberships(source.fold, r.value.collected.entries, r.value.collected.entries)
      && forall i | 0 <= i < |r.value.collected.entries| ::
           PrimaryGroupKnown(r.value.collected.entries, r.value.collected.entries[i])
  {
    var paged;
    paged, users, groups := Collect(source, l);
    if paged.Rejected? {
      return Rejected, users, groups;
    }
    var s := paged.value;
    IndexedMeaning(source.fold, s.entries, s.seen, s.memberships);
    var added, truncated := AddPrimaryGroups(source, l, s);
    if !truncated {
      EntriesAreWhole(source.fold, WholeReading(source, users, groups));
    }
    return Ok(Collection(s, added, truncated)), users, groups;
  }

  /** Every entry was read from some delivered result, with nothing held back or unreadable. */
  ghost predicate EntriesRead(entries: seq<Entry>, items: seq<Item>) {
    forall e | e in entries :: exists item | item in items :: ReadFrom(item, e)
  }
}

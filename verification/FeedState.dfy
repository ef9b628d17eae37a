/** The persisted replay guard for signed check feeds. A manifest digest is the manifest. */
module FeedState {
  import opened Results
  import PackStore

  datatype FeedEntry = FeedEntry(packId: string, version: string, url: string, sha256: PackStore.Artifact,
                                 signer: string)

  datatype Feed = Feed(feedId: string, generatedAt: string, packs: seq<FeedEntry>)

  datatype Accepted = Accepted(feedId: string, generatedAt: string, manifest: Feed, sourceUrl: string)

  type States = map<string, Accepted>

  /** Reads a timezone-aware ISO 8601 instant, if the text is one. */
  type Clock = string -> Option<int>

  function Validate(instant: Clock, states: States, feed: Feed, sourceUrl: string): Result<Accepted> {
    if !PackStore.SafeId(feed.feedId) || instant(feed.generatedAt).None? then Rejected
    else
      var offered := Accepted(feed.feedId, feed.generatedAt, feed, sourceUrl);
      if feed.feedId !in states then Ok(offered)
      else
        var existing := states[feed.feedId];
        if existing.feedId != feed.feedId || instant(existing.generatedAt).None? then Rejected
        else if instant(feed.generatedAt).value < instant(existing.generatedAt).value then Rejected
        else if instant(feed.generatedAt).value > instant(existing.generatedAt).value then Ok(offered)
        else if feed != existing.manifest then Rejected
        else Ok(existing)
  }

  function Accept(instant: Clock, states: States, feed: Feed, sourceUrl: string): States {
    var record := Validate(instant, states, feed, sourceUrl);
    if record.Ok? then states[feed.feedId := record.value] else states
  }

  /** What acceptance keeps: each record is filed under its own name, at a readable instant. */
  predicate Readable(instant: Clock, states: States) {
    forall id | id in states ::
      && states[id].feedId == id && states[id].manifest.feedId == id
      && states[id].manifest.generatedAt == states[id].generatedAt
      && instant(states[id].generatedAt).Some?
  }

  /** The accepted generation of a feed may stand still or move forward, never anything else. */
  predicate Forward(instant: Clock, before: States, after: States)
    requires Readable(instant, before) && Readable(instant, after)
  {
    forall id | id in before ::
      && id in after
      && instant(before[id].generatedAt).value <= instant(after[id].generatedAt).value
      && (instant(before[id].generatedAt).value == instant(after[id].generatedAt).value ==> after[id] == before[id])
  }

  lemma AcceptMovesForward(instant: Clock, states: States, feed: Feed, sourceUrl: string)
    requires Readable(instant, states)
    ensures Readable(instant, Accept(instant, states, feed, sourceUrl))
    ensures Forward(instant, states, Accept(instant, states, feed, sourceUrl))
  {
  }

  datatype Offer = Offer(feed: Feed, sourceUrl: string)

  function AcceptAll(instant: Clock, states: States, offers: seq<Offer>): States
    decreases |offers|
  {
    if offers == [] then states
    else AcceptAll(instant, Accept(instant, states, offers[0].feed, offers[0].sourceUrl), offers[1..])
  }

  /** Over any run of offers the accepted generation never moves back, and at an equal instant
      neither the manifest nor the record changes. */
  lemma {:induction false} NeverReplayed(instant: Clock, states: States, offers: seq<Offer>)
    requires Readable(instant, states)
    ensures Readable(instant, AcceptAll(instant, states, offers))
    ensures Forward(instant, states, AcceptAll(instant, states, offers))
    decreases |offers|
  {
    if offers != [] {
      var next := Accept(instant, states, offers[0].feed, offers[0].sourceUrl);
      AcceptMovesForward(instant, states, offers[0].feed, offers[0].sourceUrl);
      NeverReplayed(instant, next, offers[1..]);
    }
  }

  /** Once a manifest was superseded by a later generation it is refused for good. */
  lemma SupersededIsRefused(instant: Clock, states: States, stale: Feed, newer: Feed, url1: string, url2: string,
                            offers: seq<Offer>)
    requires Readable(instant, states) && stale.feedId == newer.feedId
    requires instant(stale.generatedAt).Some? && instant(newer.generatedAt).Some?
    requires instant(stale.generatedAt).value < instant(newer.generatedAt).value
    requires Validate(instant, states, newer, url1).Ok?
    ensures Validate(instant, AcceptAll(instant, Accept(instant, states, newer, url1), offers), stale, url2).Rejected?
  {
    AcceptMovesForward(instant, states, newer, url1);
    NeverReplayed(instant, Accept(instant, states, newer, url1), offers);
  }

  /** When an offered manifest is acceptable: a known feed must not fall behind its accepted
      generation, nor change within it. */
  predicate Acceptable(instant: Clock, states: States, feed: Feed) {
    && PackStore.SafeId(feed.feedId) && instant(feed.generatedAt).Some?
    && (feed.feedId in states ==>
          && states[feed.feedId].feedId == feed.feedId && instant(states[feed.feedId].generatedAt).Some?
          && var last := instant(states[feed.feedId].generatedAt).value;
             || last < instant(feed.generatedAt).value
             || (last == instant(feed.generatedAt).value && states[feed.feedId].manifest == feed))
  }

  /** Offering an accepted manifest again is accepted and changes nothing. */
  lemma AcceptanceIsStable(instant: Clock, states: States, feed: Feed, url1: string, url2: string)
    requires Readable(instant, states) && Validate(instant, states, feed, url1).Ok?
    ensures var after := Accept(instant, states, feed, url1);
      && Validate(instant, after, feed, url2) == Ok(after[feed.feedId])
      && Accept(instant, after, feed, url2) == after
  {
    AcceptMovesForward(instant, states, feed, url1);
  }

  class CheckFeedStateStore {
    const instant: Clock
    var states: States

    constructor (instant: Clock)
      ensures this.instant == instant && states == map[] && Valid()
    {
      this.instant := instant;
      states := map[];
    }

    /** The stored records can be read back. */
    predicate Valid()
      reads this
    {
      Readable(instant, states)
    }

    /** `accept`: an acceptable manifest becomes the accepted generation of its feed and of no
        other; a valid store stays valid and only moves forward. */
    method AcceptFeed(feed: Feed, sourceUrl: string) returns (r: Result<Accepted>)
      modifies this`states
      ensures r.Ok? <==> Acceptable(instant, old(states), feed)
      ensures r.Ok? ==> feed.feedId in states && states[feed.feedId] == r.value && r.value.manifest == feed
      ensures states.Keys == if r.Ok? then old(states).Keys + {feed.feedId} else old(states).Keys
      ensures forall id | id in old(states) && (r.Rejected? || id != feed.feedId) :: states[id] == old(states)[id]
      ensures old(Valid()) ==> Valid() && Forward(instant, old(states), states)
      ensures states == Accept(instant, old(states), feed, sourceUrl)
    {
      ghost var before := states;
      r := Validate(instant, states, feed, sourceUrl);
      if r.Ok? && !(feed.feedId in states && states[feed.feedId] == r.value) {
        states := states[feed.feedId := r.value];
      }
      if Readable(instant, before) {
        AcceptMovesForward(instant, before, feed, sourceUrl);
      }
    }
  }
}

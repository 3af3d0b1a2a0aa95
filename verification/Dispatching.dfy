/** What a dispatch shares with the handlers' answers and with the cursor flush: the map of pending
    dispatches, their channels, and the last cursors. */
module Dispatching {
  import opened Wrappers

  datatype HandlerAction = Ack | Reply(content: string) | SendDm(content: string) | Defer | Ignore

  datatype Answer = Answer(handler: string, action: HandlerAction)

  /** `owner` stands for the sending half of the channel that the dispatch reads. */
  datatype Tracker = Tracker(owner: nat, handlerIds: set<string>, responseCounts: map<string, nat>, maxResponses: nat)

  /** A bot's position: the key it was reached under and a timestamp that fits 64 signed bits. */
  datatype Cursor = Cursor(npub: string, at: int)

  datatype Error = HandlerNotDispatched | RateLimited | TimestampOutOfRange | DatabaseError

  const MAX_RESPONSES_PER_HANDLER: nat := 1
  const MAX_TIMESTAMP: int := 0x7FFF_FFFF_FFFF_FFFF

  function Range<T>(s: seq<T>): set<T> {
    set x | x in s
  }

  function Count(t: Tracker, handler: string): nat {
    if handler in t.responseCounts then t.responseCounts[handler] else 0
  }

  function NewTracker(owner: nat, handlers: seq<string>): Tracker {
    Tracker(owner, Range(handlers), map[], MAX_RESPONSES_PER_HANDLER)
  }

  /** The answer that a response without a handler id is attributed to. */
  function Sender(handlerId: Option<string>): string {
    if handlerId.Some? then handlerId.value else "unknown"
  }

  predicate Accepts(pending: map<string, Tracker>, handler: string, id: string) {
    id in pending && handler in pending[id].handlerIds && Count(pending[id], handler) < pending[id].maxResponses
  }

  function WithResponse(pending: map<string, Tracker>, handler: string, id: string): map<string, Tracker>
    requires id in pending
  {
    var t := pending[id];
    pending[id := t.(responseCounts := t.responseCounts[handler := Count(t, handler) + 1])]
  }

  function Delivered(channels: map<nat, seq<Answer>>, owner: nat, answer: Answer): map<nat, seq<Answer>> {
    channels[owner := (if owner in channels then channels[owner] else []) + [answer]]
  }

  /** `persisted` after every cursor of `last` has been written over it. */
  function Flushed(persisted: map<string, Cursor>, last: map<string, Cursor>): map<string, Cursor> {
    persisted + last
  }

  function Part(last: map<string, Cursor>, bots: set<string>): map<string, Cursor> {
    map b | b in last && b in bots :: last[b]
  }

  lemma OneMoreFlushed(persisted: map<string, Cursor>, last: map<string, Cursor>, bots: set<string>, bot: string)
    requires bot in last
    ensures Flushed(persisted, Part(last, bots + {bot})) == Flushed(persisted, Part(last, bots))[bot := last[bot]]
  {
  }

  /** What the collection loop has once `read` came through the channel: everything up to the first
      `Defer`, but no more than `expected`. */
  ghost predicate CollectedFrom(expected: nat, read: seq<Answer>, responses: seq<Answer>, anyDefer: bool) {
    && |responses| <= |read| && responses == read[..|responses|] && |responses| <= expected
    && (forall k :: 0 <= k < |responses| ==> !responses[k].action.Defer?)
    && (anyDefer <==> |responses| < expected && |responses| < |read| && read[|responses|].action.Defer?)
    && (!anyDefer ==> |responses| == expected || responses == read)
  }

  lemma CollectedOnce(expected: nat, read: seq<Answer>, r1: seq<Answer>, d1: bool, r2: seq<Answer>, d2: bool)
    requires CollectedFrom(expected, read, r1, d1) && CollectedFrom(expected, read, r2, d2)
    ensures r1 == r2 && d1 == d2
  {
    assert forall k :: 0 <= k < |r1| && k < |r2| ==> r1[k] == read[k] == r2[k];
    assert !(|r1| < |r2|);
    assert !(|r2| < |r1|);
  }

  /** The collection loop, where `arrivals` are the answers that come through before the deadline. */
  method CollectResponses(expected: nat, arrivals: seq<Answer>) returns (responses: seq<Answer>, anyDefer: bool)
    ensures CollectedFrom(expected, arrivals, responses, anyDefer)
  {
    responses, anyDefer := [], false;
    var next := 0;
    while |responses| < expected
      invariant 0 <= next <= |arrivals| && !anyDefer && |responses| <= expected
      invariant responses == arrivals[..next]
      invariant forall k :: 0 <= k < |responses| ==> !responses[k].action.Defer?
      decreases |arrivals| - next
    {
      if next == |arrivals| {
        break;
      }
      var answer := arrivals[next];
      next := next + 1;
      if answer.action.Defer? {
        anyDefer := true;
        break;
      }
      responses := responses + [answer];
    }
  }

  class Dispatcher {
    var pending: map<string, Tracker>
    var channels: map<nat, seq<Answer>>
    var lastCursor: map<string, Cursor>
    var persisted: map<string, Cursor>

    constructor (persisted: map<string, Cursor>)
      ensures pending == map[] && channels == map[] && lastCursor == map[] && this.persisted == persisted
    {
      pending, channels, lastCursor, this.persisted := map[], map[], map[], persisted;
    }

    /** `handler.response`: errors and unknown events leave everything as it was. */
    method HandleResponse(handlerId: Option<string>, id: string, action: HandlerAction) returns (r: Result<(), Error>)
      modifies this`pending, this`channels
      ensures r.Ok? <==> id !in old(pending) || Accepts(old(pending), Sender(handlerId), id)
      ensures r == Err(HandlerNotDispatched) <==> id in old(pending) && Sender(handlerId) !in old(pending)[id].handlerIds
      ensures r.Ok? || r == Err(HandlerNotDispatched) || r == Err(RateLimited)
      ensures if Accepts(old(pending), Sender(handlerId), id) then
                && pending == WithResponse(old(pending), Sender(handlerId), id)
                && var owner, answer := old(pending)[id].owner, Answer(Sender(handlerId), action);
                channels == old(channels)[owner := (if owner in old(channels) then old(channels)[owner] else []) + [answer]]
              else pending == old(pending) && channels == old(channels)
    {
      if id in pending {
        var tracker := pending[id];
        var handler := Sender(handlerId);
        if handler !in tracker.handlerIds {
          return Err(HandlerNotDispatched);
        }
        var count := Count(tracker, handler);
        if count >= tracker.maxResponses {
          return Err(RateLimited);
        }
        pending := pending[id := tracker.(responseCounts := tracker.responseCounts[handler := count + 1])];
        channels := Delivered(channels, tracker.owner, Answer(handler, action));
      }
      return Ok(());
    }

    /** The end of a dispatch. A `Defer` keeps the position; a timestamp beyond 63 bits is an error before
        anything is written; a failing database leaves the position in memory only. */
    method RecordCursor(bot: string, npub: string, timestamp: nat, anyDefer: bool, saves: bool) returns (r: Result<(), Error>)
      modifies this`lastCursor, this`persisted
      ensures anyDefer || timestamp > MAX_TIMESTAMP ==> lastCursor == old(lastCursor) && persisted == old(persisted)
      ensures !anyDefer && timestamp <= MAX_TIMESTAMP ==>
                && lastCursor == old(lastCursor)[bot := Cursor(npub, timestamp)]
                && persisted == if saves then old(persisted)[bot := Cursor(npub, timestamp)] else old(persisted)
      ensures r.Ok? <==> anyDefer || (timestamp <= MAX_TIMESTAMP && saves)
    {
      if !anyDefer {
        if timestamp > MAX_TIMESTAMP {
          return Err(TimestampOutOfRange);
        }
        lastCursor := lastCursor[bot := Cursor(npub, timestamp)];
        if !saves {
          return Err(DatabaseError);
        }
        persisted := persisted[bot := Cursor(npub, timestamp)];
      }
      return Ok(());
    }

    /** Writes every last cursor; `saves` says for which bots the database takes the write. */
    method FlushCursors(saves: set<string>) returns (r: Result<(), Error>)
      modifies this`persisted
      ensures r.Ok? <==> lastCursor.Keys <= saves
      ensures r.Ok? ==> persisted == Flushed(old(persisted), lastCursor)
      ensures r.Ok? ==> forall b :: b in lastCursor ==> b in persisted && persisted[b] == lastCursor[b]
      ensures r.Ok? ==> forall b :: b !in lastCursor ==> (b in persisted <==> b in old(persisted))
      ensures r.Ok? ==> forall b :: b !in lastCursor && b in persisted ==> persisted[b] == old(persisted)[b]
      // A failing flush has written some of the cursors and nothing else.
      ensures exists done :: done <= lastCursor.Keys && persisted == Flushed(old(persisted), Part(lastCursor, done))
    {
      var cursors := lastCursor;
      var left := cursors.Keys;
      assert Part(cursors, cursors.Keys - left) == map[];
      while left != {}
        invariant left <= cursors.Keys && cursors.Keys - left <= saves
        invariant persisted == Flushed(old(persisted), Part(cursors, cursors.Keys - left))
      {
        var bot :| bot in left;
        if bot !in saves {
          return Err(DatabaseError);
        }
        OneMoreFlushed(old(persisted), cursors, cursors.Keys - left, bot);
        assert cursors.Keys - (left - {bot}) == (cursors.Keys - left) + {bot};
        persisted := persisted[bot := cursors[bot]];
        left := left - {bot};
      }
      assert Part(cursors, cursors.Keys - left) == cursors;
      return Ok(());
    }
  }
}

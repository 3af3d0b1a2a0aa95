/** The configured bots: which ids are valid, how a bot is found by its id or its key, and what that
    makes of the mentions in a group message. */
module BotDirectories {
  import opened Wrappers

  datatype IdError = Empty | TooLong | BadFirst | BadLast | NotASlug

  const MAX_BOT_ID_LENGTH: nat := 64

  predicate IsLowerOrDigit(c: char) {
    'a' <= c <= 'z' || '0' <= c <= '9'
  }

  function ValidateBotId(id: string): Result<(), IdError> {
    if id == "" then Err(Empty)
    else if |id| > MAX_BOT_ID_LENGTH then Err(TooLong)
    else if !IsLowerOrDigit(id[0]) then Err(BadFirst)
    else if !IsLowerOrDigit(id[|id| - 1]) then Err(BadLast)
    else if exists i :: 0 <= i < |id| && !IsLowerOrDigit(id[i]) && id[i] != '-' && id[i] != '_' then Err(NotASlug)
    else Ok(())
  }

  const LETTERS := "abcdefghijklmnopqrstuvwxyz"
  const DIGITS := "0123456789"

  lemma LettersAreListed(c: char)
    ensures 'a' <= c <= 'z' <==> c in LETTERS
  {
    if 'a' <= c <= 'z' {
      assert LETTERS[c as int - 'a' as int] == c;
    }
  }

  lemma DigitsAreListed(c: char)
    ensures '0' <= c <= '9' <==> c in DIGITS
  {
    if '0' <= c <= '9' {
      assert DIGITS[c as int - '0' as int] == c;
    }
  }

  predicate Listed(c: char) {
    c in LETTERS || c in DIGITS
  }

  /** Exactly the slugs are valid: 1 to 64 of these letters and digits, with hyphens and underscores between them. Of several
      faults the first of these is named. */
  lemma ExactlySlugsAreValid(id: string)
    ensures var r := ValidateBotId(id);
            if id == "" then r == Err(Empty)
            else if |id| > 64 then r == Err(TooLong)
            else if !Listed(id[0]) then r == Err(BadFirst)
            else if !Listed(id[|id| - 1]) then r == Err(BadLast)
            else if exists c :: c in id && !Listed(c) && c != '-' && c != '_' then r == Err(NotASlug)
            else r == Ok(())
  {
    forall c
      ensures IsLowerOrDigit(c) <==> Listed(c)
    {
      LettersAreListed(c);
      DigitsAreListed(c);
    }
    assert forall i :: 0 <= i < |id| ==> id[i] in id;
  }

  /** Valid ids may be joined by hyphens and underscores, and only the length can then be at fault. */
  lemma SlugsJoin(a: string, c: char, b: string)
    requires ValidateBotId(a).Ok? && ValidateBotId(b).Ok? && (c == '-' || c == '_')
    ensures ValidateBotId(a + [c] + b) == if |a| + 1 + |b| <= 64 then Ok(()) else Err(TooLong)
  {
    var id := a + [c] + b;
    assert forall i :: 0 <= i < |id| ==> id[i] == if i < |a| then a[i] else if i == |a| then c else b[i - |a| - 1];
  }

  /** Nothing that is special in a path, a slot name or a file of configuration occurs in a valid id. */
  lemma ValidIdsAreSafe(id: string)
    requires ValidateBotId(id).Ok?
    ensures forall c :: c in id ==> c !in "/\\.:;,=*?$~%'\"[]{}() \t\n"
  {
    forall c | c in id
      ensures c !in "/\\.:;,=*?$~%'\"[]{}() \t\n"
    {
      assert IsLowerOrDigit(c) || c == '-' || c == '_';
    }
  }

  /** The name of a bot's slot in the limiter and in the deduplication cache. */
  function SlotKey(bot: string, other: string): string {
    bot + ":" + other
  }

  lemma NoColonInside(id: string)
    requires ValidateBotId(id).Ok?
    ensures ':' !in id
  {
    assert forall i :: 0 <= i < |id| ==> id[i] != ':';
  }

  /** Slots of different pairs never coincide when the bot ids are valid, whatever the other part holds. */
  lemma SlotsDoNotCollide(a: string, x: string, b: string, y: string)
    requires ValidateBotId(a).Ok? && ValidateBotId(b).Ok?
    ensures SlotKey(a, x) == SlotKey(b, y) <==> a == b && x == y
  {
    if SlotKey(a, x) == SlotKey(b, y) {
      NoColonInside(a);
      NoColonInside(b);
      var s := SlotKey(a, x);
      assert s[|a|] == ':' && s[|b|] == ':';
      assert forall i :: 0 <= i < |a| ==> s[i] == a[i];
      assert forall i :: 0 <= i < |b| ==> s[i] == b[i];
      assert |a| == |b|;
      assert a == s[..|a|] == b;
      assert x == s[|a| + 1..] == y;
    }
  }

  /** Validation is needed for that. */
  lemma UncheckedIdsCollide()
    ensures SlotKey("a", "b:c") == SlotKey("a:b", "c")
    ensures ValidateBotId("a:b") == Err(NotASlug)
  {
    assert "a:b"[1] == ':';
  }

  datatype Bot = Bot(id: string, npub: string, key: string)

  datatype LoadError = InvalidId(why: IdError) | DuplicateId | CannotStart

  function Range(bots: seq<Bot>): set<Bot> {
    set b | b in bots
  }

  ghost predicate DistinctIds(bots: seq<Bot>) {
    forall i, j :: 0 <= i < j < |bots| ==> bots[i].id != bots[j].id
  }

  ghost predicate AllValid(bots: seq<Bot>) {
    forall i :: 0 <= i < |bots| ==> ValidateBotId(bots[i].id).Ok?
  }

  /** Bots that can all be loaded. */
  ghost predicate InOrder(bots: seq<Bot>, starts: set<Bot>) {
    AllValid(bots) && DistinctIds(bots) && Range(bots) <= starts
  }

  /** The bots before `i` are in order; the one at `i` is refused for this. */
  ghost predicate FailsAt(bots: seq<Bot>, starts: set<Bot>, i: nat, why: LoadError) {
    && i < |bots| && InOrder(bots[..i], starts)
    && match why
       case InvalidId(e) => ValidateBotId(bots[i].id) == Err(e)
       case DuplicateId => ValidateBotId(bots[i].id).Ok? && bots[i].id in KeyById(bots[..i])
       case CannotStart => ValidateBotId(bots[i].id).Ok? && bots[i].id !in KeyById(bots[..i]) && bots[i] !in starts
  }

  lemma OneMoreInOrder(bots: seq<Bot>, starts: set<Bot>, i: nat)
    requires i < |bots| && InOrder(bots[..i], starts)
    ensures InOrder(bots[..i + 1], starts)
            <==> ValidateBotId(bots[i].id).Ok? && bots[i].id !in KeyById(bots[..i]) && bots[i] in starts
    ensures !InOrder(bots[..i + 1], starts) ==> !InOrder(bots, starts)
  {
    var next := bots[..i + 1];
    IdsSoFar(bots[..i]);
    assert next == bots[..i] + [bots[i]];
    if InOrder(next, starts) {
      assert next[i] in Range(next);
      assert forall j :: 0 <= j < i ==> bots[..i][j] == next[j];
    }
    if InOrder(bots, starts) {
      PrefixInOrder(bots, starts, i + 1);
    }
  }

  lemma PrefixInOrder(bots: seq<Bot>, starts: set<Bot>, i: nat)
    requires i <= |bots| && InOrder(bots, starts)
    ensures InOrder(bots[..i], starts)
  {
  }

  /** The two maps: later bots replace earlier ones under the same key. */
  ghost function ByKey(bots: seq<Bot>): map<string, Bot> {
    if bots == [] then map[] else ByKey(bots[..|bots| - 1])[bots[|bots| - 1].key := bots[|bots| - 1]]
  }

  ghost function KeyById(bots: seq<Bot>): map<string, string> {
    if bots == [] then map[] else KeyById(bots[..|bots| - 1])[bots[|bots| - 1].id := bots[|bots| - 1].key]
  }

  function Find(bots: map<string, Bot>, keyById: map<string, string>, id: string): Option<Bot> {
    if id in keyById && keyById[id] in bots then Some(bots[keyById[id]]) else None
  }

  /** Every npub among the bots, with the id of one that has it. */
  ghost predicate IsNpubMap(bots: set<Bot>, ids: map<string, string>) {
    && (forall b :: b in bots ==> b.npub in ids)
    && forall n :: n in ids ==> exists b :: b in bots && b.npub == n && b.id == ids[n]
  }

  class ClientManager {
    var bots: map<string, Bot>
    var keyById: map<string, string>

    constructor ()
      ensures bots == map[] && keyById == map[]
    {
      bots, keyById := map[], map[];
    }

    /** `starts` are the configurations whose engine, signer and bunker come up; one that does not ends the loading. */
    method Load(configs: seq<Bot>, starts: set<Bot>) returns (r: Result<(), LoadError>)
      requires bots == map[] && keyById == map[]
      modifies this
      ensures r.Ok? <==> InOrder(configs, starts)
      ensures r.Ok? ==> bots == ByKey(configs) && keyById == KeyById(configs)
      ensures r.Err? ==> exists i :: FailsAt(configs, starts, i, r.error)
    {
      for i := 0 to |configs|
        invariant bots == ByKey(configs[..i]) && keyById == KeyById(configs[..i]) && InOrder(configs[..i], starts)
      {
        var bot := configs[i];
        OneMoreInOrder(configs, starts, i);
        var valid := ValidateBotId(bot.id);
        if valid.Err? {
          assert FailsAt(configs, starts, i, InvalidId(valid.error));
          return Err(InvalidId(valid.error));
        }
        if bot.id in keyById {
          assert FailsAt(configs, starts, i, DuplicateId);
          return Err(DuplicateId);
        }
        if bot !in starts {
          assert FailsAt(configs, starts, i, CannotStart);
          return Err(CannotStart);
        }
        assert configs[..i + 1][..i] == configs[..i];
        bots := bots[bot.key := bot];
        keyById := keyById[bot.id := bot.key];
      }
      assert configs[..|configs|] == configs;
      return Ok(());
    }

    method NpubToBotIdMap() returns (ids: map<string, string>)
      ensures IsNpubMap(bots.Values, ids)
    {
      ids := map[];
      var left := bots.Values;
      while left != {}
        invariant left <= bots.Values
        invariant IsNpubMap(bots.Values - left, ids)
      {
        ghost var before := bots.Values - left;
        var bot :| bot in left;
        ghost var ids0 := ids;
        ids := ids[bot.npub := bot.id];
        left := left - {bot};
        forall n | n in ids
          ensures exists b :: b in bots.Values - left && b.npub == n && b.id == ids[n]
        {
          if n == bot.npub {
            assert bot in bots.Values - left;
          } else {
            var b :| b in before && b.npub == n && b.id == ids0[n];
            assert b in bots.Values - left;
          }
        }
      }
    }
  }

  lemma {:induction false} IdsSoFar(bots: seq<Bot>)
    ensures forall id :: id in KeyById(bots) <==> exists i :: 0 <= i < |bots| && bots[i].id == id
  {
    if bots != [] {
      var n := |bots| - 1;
      IdsSoFar(bots[..n]);
      forall id
        ensures id in KeyById(bots) <==> exists i :: 0 <= i < |bots| && bots[i].id == id
      {
        if i: nat :| i < n && bots[..n][i].id == id {
          assert bots[i].id == id;
        }
        if i: nat :| i < |bots| && bots[i].id == id {
          assert i < n ==> bots[..n][i].id == id;
        }
      }
    }
  }

  ghost predicate KeyTakenLater(bots: seq<Bot>, i: nat)
    requires i < |bots|
  {
    exists j :: i < j < |bots| && bots[j].key == bots[i].key
  }

  /** A bot is found under its own id exactly when no later bot has its key. */
  lemma {:induction false} FoundUnlessKeyTaken(bots: seq<Bot>, i: nat)
    requires DistinctIds(bots) && i < |bots|
    ensures bots[i].id in KeyById(bots) && KeyById(bots)[bots[i].id] == bots[i].key && bots[i].key in ByKey(bots)
    ensures Find(ByKey(bots), KeyById(bots), bots[i].id) == Some(bots[i]) <==> !KeyTakenLater(bots, i)
  {
    var n := |bots| - 1;
    if i < n {
      FoundUnlessKeyTaken(bots[..n], i);
      assert bots[..n][i] == bots[i];
      if bots[n].key == bots[i].key {
        assert KeyTakenLater(bots, i);
      } else {
        assert KeyTakenLater(bots[..n], i) ==> KeyTakenLater(bots, i) by {
          if j :| i < j < n && bots[..n][j].key == bots[..n][i].key {
            assert bots[j].key == bots[i].key;
          }
        }
        assert KeyTakenLater(bots, i) ==> KeyTakenLater(bots[..n], i) by {
          if j :| i < j < |bots| && bots[j].key == bots[i].key {
            assert bots[..n][j].key == bots[..n][i].key;
          }
        }
      }
    }
  }

  lemma {:induction false} LastWithKey(bots: seq<Bot>, i: nat) returns (j: nat)
    requires i < |bots|
    ensures i <= j < |bots| && bots[j].key == bots[i].key && !KeyTakenLater(bots, j)
    ensures bots[i].key in ByKey(bots) && ByKey(bots)[bots[i].key] == bots[j]
  {
    var n := |bots| - 1;
    if bots[n].key == bots[i].key {
      j := n;
    } else {
      j := LastWithKey(bots[..n], i);
      forall l | j < l < |bots|
        ensures bots[l].key != bots[j].key
      {
        assert l < n ==> bots[..n][l] == bots[l];
      }
    }
  }

  /** What is found under a bot's id is the last bot with that bot's key. */
  lemma FindsTheLastWithItsKey(bots: seq<Bot>, i: nat) returns (j: nat)
    requires DistinctIds(bots) && i < |bots|
    ensures i <= j < |bots| && bots[j].key == bots[i].key && !KeyTakenLater(bots, j)
    ensures Find(ByKey(bots), KeyById(bots), bots[i].id) == Some(bots[j])
  {
    FoundUnlessKeyTaken(bots, i);
    j := LastWithKey(bots, i);
  }

  /** Under an id of no bot nothing is found. */
  lemma UnknownIdIsNotFound(bots: seq<Bot>, id: string)
    requires forall i :: 0 <= i < |bots| ==> bots[i].id != id
    ensures Find(ByKey(bots), KeyById(bots), id) == None
  {
    IdsSoFar(bots);
  }

  ghost predicate DistinctKeys(bots: seq<Bot>) {
    forall i, j :: 0 <= i < j < |bots| ==> bots[i].key != bots[j].key
  }

  /** Every bot is found under its own id if and only if no two bots share a key, which nothing checks. */
  lemma AllFoundExactlyWithDistinctKeys(bots: seq<Bot>)
    requires DistinctIds(bots)
    ensures DistinctKeys(bots) <==>
              forall i :: 0 <= i < |bots| ==> Find(ByKey(bots), KeyById(bots), bots[i].id) == Some(bots[i])
  {
    forall i | 0 <= i < |bots|
      ensures Find(ByKey(bots), KeyById(bots), bots[i].id) == Some(bots[i]) <==> !KeyTakenLater(bots, i)
    {
      FoundUnlessKeyTaken(bots, i);
    }
    if !DistinctKeys(bots) {
      var i, j :| 0 <= i < j < |bots| && bots[i].key == bots[j].key;
      assert KeyTakenLater(bots, i);
    }
  }

  lemma {:induction false} OnlyConfiguredBots(bots: seq<Bot>, b: Bot)
    requires b in ByKey(bots).Values
    ensures b in bots
  {
    var n := |bots| - 1;
    if b != bots[n] {
      OnlyConfiguredBots(bots[..n], b);
    }
  }

  ghost predicate DistinctNpubs(bots: seq<Bot>) {
    forall i, j :: 0 <= i < j < |bots| ==> bots[i].npub != bots[j].npub
  }

  /** With keys and npubs all different, the npub map leads from each bot's npub to that bot's id and nowhere else. */
  lemma NpubMapIsOneToOne(bots: seq<Bot>, ids: map<string, string>, i: nat)
    requires DistinctIds(bots) && DistinctKeys(bots) && DistinctNpubs(bots)
    requires IsNpubMap(ByKey(bots).Values, ids) && i < |bots|
    ensures forall n :: n in ids && ids[n] == bots[i].id <==> n == bots[i].npub
  {
    FoundUnlessKeyTaken(bots, i);
    assert Find(ByKey(bots), KeyById(bots), bots[i].id) == Some(bots[i]);
    assert bots[i] in ByKey(bots).Values;
    forall n | n in ids
      ensures ids[n] == bots[i].id <==> n == bots[i].npub
    {
      var b :| b in ByKey(bots).Values && b.npub == n && b.id == ids[n];
      OnlyConfiguredBots(bots, b);
      var j :| 0 <= j < |bots| && bots[j] == b;
    }
  }

  // ----- Mentions -----

  /** Each bot once, in the order of its first mention. */
  ghost function Mentioned(mentions: seq<string>, ids: map<string, string>): seq<string> {
    if mentions == [] then []
    else
      var n := |mentions| - 1;
      var earlier := Mentioned(mentions[..n], ids);
      if mentions[n] in ids && ids[mentions[n]] !in earlier then earlier + [ids[mentions[n]]] else earlier
  }

  method MentionedBotIds(mentions: seq<string>, ids: map<string, string>) returns (found: seq<string>)
    ensures found == Mentioned(mentions, ids)
  {
    found := [];
    var seen: set<string> := {};
    for i := 0 to |mentions|
      invariant found == Mentioned(mentions[..i], ids)
      invariant forall id :: id in seen <==> id in found
    {
      assert mentions[..i + 1][..i] == mentions[..i];
      if mentions[i] in ids && ids[mentions[i]] !in seen {
        seen := seen + {ids[mentions[i]]};
        found := found + [ids[mentions[i]]];
      }
    }
    assert mentions[..|mentions|] == mentions;
  }

  ghost predicate Mentions(mentions: seq<string>, ids: map<string, string>, k: nat, id: string)
    requires k < |mentions|
  {
    mentions[k] in ids && ids[mentions[k]] == id
  }

  ghost predicate FirstMention(mentions: seq<string>, ids: map<string, string>, k: nat, id: string) {
    && k < |mentions| && Mentions(mentions, ids, k, id)
    && forall j :: 0 <= j < k ==> !Mentions(mentions, ids, j, id)
  }

  lemma {:induction false} MentionedExactly(mentions: seq<string>, ids: map<string, string>, id: string)
    ensures id in Mentioned(mentions, ids) <==> exists k :: 0 <= k < |mentions| && Mentions(mentions, ids, k, id)
  {
    if mentions != [] {
      var n := |mentions| - 1;
      MentionedExactly(mentions[..n], ids, id);
      assert forall k :: 0 <= k < n ==> (Mentions(mentions, ids, k, id) <==> Mentions(mentions[..n], ids, k, id));
      assert Mentions(mentions, ids, n, id) <==> mentions[n] in ids && ids[mentions[n]] == id;
    }
  }

  /** The mentioned ids come in the order of their first mentions, so none comes twice. */
  lemma {:induction false} OrderOfFirstMention(mentions: seq<string>, ids: map<string, string>, i: nat, j: nat)
    requires i < j < |Mentioned(mentions, ids)|
    ensures exists k, l :: k < l && FirstMention(mentions, ids, k, Mentioned(mentions, ids)[i])
                           && FirstMention(mentions, ids, l, Mentioned(mentions, ids)[j])
    ensures Mentioned(mentions, ids)[i] != Mentioned(mentions, ids)[j]
  {
    var n := |mentions| - 1;
    var earlier, all := Mentioned(mentions[..n], ids), Mentioned(mentions, ids);
    if j < |earlier| {
      OrderOfFirstMention(mentions[..n], ids, i, j);
      var k, l :| k < l && FirstMention(mentions[..n], ids, k, earlier[i]) && FirstMention(mentions[..n], ids, l, earlier[j]);
      FirstStaysFirst(mentions, ids, k, all[i]);
      FirstStaysFirst(mentions, ids, l, all[j]);
    } else {
      FirstExists(mentions[..n], ids, all[i]);
      var k :| FirstMention(mentions[..n], ids, k, all[i]);
      FirstStaysFirst(mentions, ids, k, all[i]);
      MentionedExactly(mentions[..n], ids, all[j]);
      assert forall m :: 0 <= m < n ==> (Mentions(mentions, ids, m, all[j]) <==> Mentions(mentions[..n], ids, m, all[j]));
      assert FirstMention(mentions, ids, n, all[j]);
    }
  }

  lemma FirstStaysFirst(mentions: seq<string>, ids: map<string, string>, k: nat, id: string)
    requires mentions != [] && FirstMention(mentions[..|mentions| - 1], ids, k, id)
    ensures FirstMention(mentions, ids, k, id)
  {
    var n := |mentions| - 1;
    assert forall m :: 0 <= m < n ==> (Mentions(mentions, ids, m, id) <==> Mentions(mentions[..n], ids, m, id));
  }

  lemma {:induction false} FirstExists(mentions: seq<string>, ids: map<string, string>, id: string)
    requires id in Mentioned(mentions, ids)
    ensures exists k: nat :: FirstMention(mentions, ids, k, id)
  {
    var n := |mentions| - 1;
    if id in Mentioned(mentions[..n], ids) {
      FirstExists(mentions[..n], ids, id);
      var k: nat :| FirstMention(mentions[..n], ids, k, id);
      FirstStaysFirst(mentions, ids, k, id);
    } else {
      MentionedExactly(mentions[..n], ids, id);
      assert forall m :: 0 <= m < n ==> (Mentions(mentions, ids, m, id) <==> Mentions(mentions[..n], ids, m, id));
      assert FirstMention(mentions, ids, n, id);
    }
  }

  /** A bot is flagged as mentioned exactly when its own id is among the mentioned ones. */
  lemma FlagAgreesWithIds(bots: seq<Bot>, ids: map<string, string>, mentions: seq<string>, i: nat)
    requires DistinctIds(bots) && DistinctKeys(bots) && DistinctNpubs(bots)
    requires IsNpubMap(ByKey(bots).Values, ids) && i < |bots|
    ensures bots[i].npub in mentions <==> bots[i].id in Mentioned(mentions, ids)
  {
    MentionedExactly(mentions, ids, bots[i].id);
    NpubMapIsOneToOne(bots, ids, i);
    if bots[i].npub in mentions {
      var k :| 0 <= k < |mentions| && mentions[k] == bots[i].npub;
      assert Mentions(mentions, ids, k, bots[i].id);
    }
  }
}

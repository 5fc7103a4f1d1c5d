/** The cache of uploaded images: `attachmentCache.getOrUpload` of internal/basispoints/attachments.go, a
    least-recently-used cache with one upload per key at a time. Its two critical sections are atomic steps,
    with any number of callers between them. The record that callers of one upload share is known by a
    ticket. */
module Attachments {
  import opened Responses

  const MAX_ENTRIES := 512

  type Key = string
  type Ticket = nat
  type Caller = nat

  datatype Entry = Entry(key: Key, fileId: string)

  datatype Upload = Upload(key: Key, result: Result<string, string>)

  /** What the first critical section tells a caller to do. */
  datatype Lookup = Hit(fileId: string) | Wait(ticket: Ticket) | Begin(ticket: Ticket)

  // ---------- the list ----------

  function Keys(order: seq<Entry>): seq<Key> {
    seq(|order|, k requires 0 <= k < |order| => order[k].key)
  }

  function Without(order: seq<Entry>, key: Key): seq<Entry> {
    if order == [] then []
    else if order[0].key == key then Without(order[1..], key)
    else [order[0]] + Without(order[1..], key)
  }

  function Find(order: seq<Entry>, key: Key): Option<string> {
    if order == [] then None
    else if order[0].key == key then Some(order[0].fileId)
    else Find(order[1..], key)
  }

  /** `MoveToFront` of the element of a key. */
  function MovedToFront(order: seq<Entry>, key: Key): seq<Entry> {
    match Find(order, key)
    case None => order
    case Some(fileId) => [Entry(key, fileId)] + Without(order, key)
  }

  /** `PushFront`, and the oldest element goes when the list has become too long. */
  function Pushed(order: seq<Entry>, entry: Entry): seq<Entry> {
    var longer := [entry] + order;
    if |longer| > MAX_ENTRIES then longer[..|longer| - 1] else longer
  }

  // ---------- the shared state ----------

  datatype Shared = Shared(order: seq<Entry>, pending: map<Key, Ticket>, finished: map<Ticket, Upload>, next: Ticket)

  const EMPTY := Shared([], map[], map[], 0)

  function AfterLookUp(s: Shared, key: Key): (Shared, Lookup) {
    if Find(s.order, key).Some? then
      (s.(order := MovedToFront(s.order, key)), Hit(Find(s.order, key).value))
    else if key in s.pending then (s, Wait(s.pending[key]))
    else (s.(pending := s.pending[key := s.next], next := s.next + 1), Begin(s.next))
  }

  function AfterComplete(s: Shared, key: Key, ticket: Ticket, result: Result<string, string>): Shared {
    s.(pending := s.pending - {key},
       order := if result.Ok? then Pushed(s.order, Entry(key, result.value)) else s.order,
       finished := s.finished[ticket := Upload(key, result)])
  }

  class AttachmentCache {
    /** The element of the list that belongs to each key. */
    var entries: map<Key, Entry>
    var order: seq<Entry>
    var pending: map<Key, Ticket>
    var finished: map<Ticket, Upload>
    var next: Ticket

    constructor ()
      ensures Valid() && Abs() == EMPTY
    {
      entries, order, pending, finished, next := map[], [], map[], map[], 0;
    }

    ghost function Abs(): Shared
      reads this
    {
      Shared(order, pending, finished, next)
    }

    /** Map and list hold the same keys. */
    ghost predicate Valid()
      reads this
    {
      Distinct(order) && Mirrors(entries, order)
    }

    method LookUp(key: Key) returns (r: Lookup)
      requires Valid()
      modifies this
      ensures Valid() && (Abs(), r) == AfterLookUp(old(Abs()), key)
    {
      if key in entries {
        var entry := entries[key];
        MovedHolds(order, key);
        order := [entry] + Without(order, key);
        return Hit(entry.fileId);
      }
      if key in pending {
        return Wait(pending[key]);
      }
      pending := pending[key := next];
      r := Begin(next);
      next := next + 1;
    }

    /** A new element at the front; the oldest one goes when there are too many. */
    method Store(entry: Entry)
      requires Valid() && Find(order, entry.key).None?
      modifies this`entries, this`order
      ensures Valid() && order == Pushed(old(order), entry)
    {
      PushedHolds(order, entry);
      PushedMirrors(entries, order, entry);
      hide Find, Distinct, Mirrors;
      entries := entries[entry.key := entry];
      order := [entry] + order;
      if |order| > MAX_ENTRIES {
        var oldest := order[|order| - 1];
        entries := entries - {oldest.key};
        order := order[..|order| - 1];
      }
    }

    method Complete(key: Key, ticket: Ticket, result: Result<string, string>)
      requires Valid() && Find(order, key).None?
      modifies this
      ensures Valid() && Abs() == AfterComplete(old(Abs()), key, ticket, result)
    {
      hide Find, Distinct, Mirrors, Pushed;
      pending := pending - {key};
      if result.Ok? {
        Store(Entry(key, result.value));
      }
      finished := finished[ticket := Upload(key, result)];
    }
  }

  ghost predicate Mirrors(entries: map<Key, Entry>, order: seq<Entry>) {
    && (forall key :: key in entries <==> Find(order, key).Some?)
    && (forall key | key in entries :: entries[key] == Entry(key, Find(order, key).value))
  }

  /** No key twice. */
  ghost predicate Distinct(order: seq<Entry>) {
    forall j, k | 0 <= j < k < |order| :: order[j].key != order[k].key
  }

  lemma {:induction false} WithoutHolds(order: seq<Entry>, key: Key)
    ensures forall e :: e in Without(order, key) <==> e in order && e.key != key
    ensures Distinct(order) ==> Distinct(Without(order, key))
    ensures Distinct(order) ==> |Without(order, key)| == |order| - (if Find(order, key).Some? then 1 else 0)
  {
    if order != [] {
      WithoutHolds(order[1..], key);
      assert order == [order[0]] + order[1..];
      if Distinct(order) {
        DistinctRest(order);
        NotFound(order[1..], order[0].key);
      }
    }
  }

  lemma DistinctRest(order: seq<Entry>)
    requires order != [] && Distinct(order)
    ensures Distinct(order[1..]) && forall e | e in order[1..] :: e.key != order[0].key
  {
    assert forall k | 0 <= k < |order| - 1 :: order[1..][k] == order[k + 1] && order[k + 1].key != order[0].key;
  }

  lemma {:induction false} NotFound(order: seq<Entry>, key: Key)
    ensures Find(order, key).None? <==> forall e | e in order :: e.key != key
    ensures Find(order, key).Some? ==> Entry(key, Find(order, key).value) in order
  {
    if order != [] {
      NotFound(order[1..], key);
      assert order == [order[0]] + order[1..];
    }
  }

  lemma {:induction false} FindWithout(order: seq<Entry>, key: Key, other: Key)
    ensures Find(Without(order, key), other) == if other == key then None else Find(order, other)
  {
    if order != [] {
      FindWithout(order[1..], key, other);
      if order[0].key != key {
        assert Without(order, key)[1..] == Without(order[1..], key);
      }
    }
  }

  /** Moving to the front changes no answer. */
  lemma MovedHolds(order: seq<Entry>, key: Key)
    requires Distinct(order) && Find(order, key).Some?
    ensures Distinct(MovedToFront(order, key)) && |MovedToFront(order, key)| == |order|
    ensures forall other :: Find(MovedToFront(order, key), other) == Find(order, other)
    ensures forall e :: e in MovedToFront(order, key) <==> e in order
  {
    WithoutHolds(order, key);
    NotFound(order, key);
    var moved := MovedToFront(order, key);
    assert moved[1..] == Without(order, key);
    forall e | e in order && e.key == key ensures e == moved[0] {
      var k :| 0 <= k < |order| && order[k] == e;
      var j :| 0 <= j < |order| && order[j] == moved[0];
    }
    forall other ensures Find(moved, other) == Find(order, other) {
      FindWithout(order, key, other);
    }
  }

  lemma {:induction false} FindFront(order: seq<Entry>, other: Key)
    requires Distinct(order) && order != []
    ensures Find(order[..|order| - 1], other) == if other == order[|order| - 1].key then None else Find(order, other)
  {
    var front := order[..|order| - 1];
    if |order| > 1 {
      assert front[1..] == order[1..][..|order| - 2];
      FindFront(order[1..], other);
    } else {
      assert order[1..] == [];
    }
  }

  /** A new entry is found, and at most the oldest one is lost. */
  lemma PushedHolds(order: seq<Entry>, entry: Entry)
    requires Distinct(order) && Find(order, entry.key).None?
    ensures Distinct([entry] + order) && Distinct(Pushed(order, entry))
    ensures |order| <= MAX_ENTRIES ==> |Pushed(order, entry)| <= MAX_ENTRIES
    ensures forall other :: Find([entry] + order, other) == if other == entry.key then Some(entry.fileId) else Find(order, other)
    ensures forall other :: Find(Pushed(order, entry), other)
              == if |order| >= MAX_ENTRIES && other == ([entry] + order)[|order|].key then None else Find([entry] + order, other)
  {
    NotFound(order, entry.key);
    var longer := [entry] + order;
    assert longer[1..] == order;
    forall j, k | 0 <= j < k < |longer| ensures longer[j].key != longer[k].key {
      if j == 0 {
        assert longer[k] in order;
      }
    }
    forall other
      ensures Find(Pushed(order, entry), other)
              == if |order| >= MAX_ENTRIES && other == longer[|order|].key then None else Find(longer, other)
    {
      FindFront(longer, other);
    }
  }

  lemma PushedMirrors(entries: map<Key, Entry>, order: seq<Entry>, entry: Entry)
    requires Distinct(order) && Mirrors(entries, order) && Find(order, entry.key).None?
    ensures var longer, added := [entry] + order, entries[entry.key := entry];
            if |longer| > MAX_ENTRIES then Mirrors(added - {longer[|longer| - 1].key}, longer[..|longer| - 1])
            else Mirrors(added, longer)
  {
    PushedHolds(order, entry);
    hide Find, Distinct;
    assert Pushed(order, entry) == if |order| >= MAX_ENTRIES then ([entry] + order)[..|order|] else [entry] + order;
  }

  // ---------- any number of callers ----------

  /** Where a caller is. `source` is the upload its answer came from, if it had to wait for one. */
  datatype Phase =
    | Uploading(key: Key, ticket: Ticket)
    | Waiting(key: Key, ticket: Ticket)
    | Returned(key: Key, result: Result<string, string>, source: Option<Ticket>)

  /** `uses` lists the keys that were found or stored, latest first. */
  datatype System = System(shared: Shared, callers: map<Caller, Phase>, uses: seq<Key>)

  const FIRST := System(EMPTY, map[], [])

  datatype Step = Ask(caller: Caller, key: Key) | Finish(caller: Caller, result: Result<string, string>) | Wake(caller: Caller)

  predicate Enabled(s: System, step: Step) {
    match step
    case Ask(c, _) => c !in s.callers
    case Finish(c, _) => c in s.callers && s.callers[c].Uploading?
    case Wake(c) => c in s.callers && s.callers[c].Waiting? && s.callers[c].ticket in s.shared.finished
  }

  function Next(s: System, step: Step): System
    requires Enabled(s, step)
  {
    match step
    case Ask(c, key) =>
      var (shared, found) := AfterLookUp(s.shared, key);
      (match found
       case Hit(fileId) => System(shared, s.callers[c := Returned(key, Ok(fileId), None)], [key] + s.uses)
       case Wait(ticket) => System(shared, s.callers[c := Waiting(key, ticket)], s.uses)
       case Begin(ticket) => System(shared, s.callers[c := Uploading(key, ticket)], s.uses))
    case Finish(c, result) =>
      var p := s.callers[c];
      System(AfterComplete(s.shared, p.key, p.ticket, result), s.callers[c := Returned(p.key, result, Some(p.ticket))],
             if result.Ok? then [p.key] + s.uses else s.uses)
    case Wake(c) =>
      var p := s.callers[c];
      s.(callers := s.callers[c := Returned(p.key, s.shared.finished[p.ticket].result, Some(p.ticket))])
  }

  /** The cache: bounded, no key twice, and every id in it is the result of an upload of its key. */
  ghost predicate CacheOk(s: Shared) {
    && Distinct(s.order) && |s.order| <= MAX_ENTRIES
    && (forall e | e in s.order :: Uploaded(s, e.key, e.fileId))
  }

  ghost predicate Uploaded(s: Shared, key: Key, fileId: string) {
    exists t :: t in s.finished && s.finished[t] == Upload(key, Ok(fileId))
  }

  /** Uploads in flight: for keys that are not cached, one per key, each by one caller. */
  ghost predicate FlightOk(s: System) {
    && (forall key | key in s.shared.pending ::
          && Find(s.shared.order, key).None?
          && s.shared.pending[key] < s.shared.next && s.shared.pending[key] !in s.shared.finished
          && exists c :: c in s.callers && s.callers[c] == Uploading(key, s.shared.pending[key]))
    && (forall t | t in s.shared.finished :: t < s.shared.next)
    && (forall c | c in s.callers && s.callers[c].Uploading? ::
          s.callers[c].key in s.shared.pending && s.shared.pending[s.callers[c].key] == s.callers[c].ticket)
    && (forall c, d | c in s.callers && d in s.callers && s.callers[c].Uploading? && s.callers[d].Uploading? && c != d ::
          s.callers[c].ticket != s.callers[d].ticket)
  }

  /** A waiter's upload is in flight or has finished, for the same key; answers are uploads' results. */
  ghost predicate CallerOk(s: System, p: Phase) {
    match p
    case Uploading(_, _) => true
    case Waiting(key, t) =>
      || (key in s.shared.pending && s.shared.pending[key] == t)
      || (t in s.shared.finished && s.shared.finished[t].key == key)
    case Returned(key, result, None) => result.Ok? && Uploaded(s.shared, key, result.value)
    case Returned(key, result, Some(t)) => t in s.shared.finished && s.shared.finished[t] == Upload(key, result)
  }

  ghost predicate SystemOk(s: System) {
    CacheOk(s.shared) && FlightOk(s) && forall c | c in s.callers :: CallerOk(s, s.callers[c])
  }

  lemma AskKeepsCache(s: System, step: Step)
    requires CacheOk(s.shared) && Enabled(s, step) && step.Ask?
    ensures CacheOk(Next(s, step).shared)
    ensures forall key :: Find(Next(s, step).shared.order, key) == Find(s.shared.order, key)
    ensures Find(s.shared.order, step.key).Some? ==> Uploaded(s.shared, step.key, Find(s.shared.order, step.key).value)
  {
    var t := Next(s, step);
    if Find(s.shared.order, step.key).Some? {
      MovedHolds(s.shared.order, step.key);
      NotFound(s.shared.order, step.key);
    }
    hide Find, Distinct, MovedToFront;
    assert t.shared.finished == s.shared.finished;
  }

  lemma AskKeepsFlight(s: System, step: Step)
    requires SystemOk(s) && Enabled(s, step) && step.Ask?
    ensures FlightOk(Next(s, step))
  {
    hide Distinct, MovedToFront, Find, CallerOk, CacheOk, Uploaded;
    AskKeepsCache(s, step);
    var t := Next(s, step);
    forall key | key in t.shared.pending
      ensures exists c :: c in t.callers && t.callers[c] == Uploading(key, t.shared.pending[key])
    {
      if key in s.shared.pending {
        var c :| c in s.callers && s.callers[c] == Uploading(key, s.shared.pending[key]);
        assert t.callers[c] == s.callers[c];
      } else {
        assert t.callers[step.caller] == Uploading(key, t.shared.pending[key]);
      }
    }
  }

  lemma AskKeepsOk(s: System, step: Step)
    requires SystemOk(s) && Enabled(s, step) && step.Ask?
    ensures SystemOk(Next(s, step))
  {
    hide Distinct, MovedToFront, Find, CacheOk, FlightOk;
    AskKeepsCache(s, step);
    AskKeepsFlight(s, step);
    var t := Next(s, step);
    forall c | c in t.callers ensures CallerOk(t, t.callers[c]) {
      if c != step.caller {
        assert CallerOk(s, s.callers[c]);
      }
    }
  }

  lemma FinishKeepsCache(s: System, step: Step)
    requires CacheOk(s.shared) && Enabled(s, step) && step.Finish?
    requires Find(s.shared.order, s.callers[step.caller].key).None?
    requires s.callers[step.caller].ticket !in s.shared.finished
    ensures CacheOk(Next(s, step).shared)
    ensures forall key | key != s.callers[step.caller].key && Find(s.shared.order, key).None? ::
              Find(Next(s, step).shared.order, key).None?
  {
    var p, t := s.callers[step.caller], Next(s, step);
    if step.result.Ok? {
      PushedHolds(s.shared.order, Entry(p.key, step.result.value));
    }
    hide Find, Distinct;
    assert t.shared.finished[p.ticket] == Upload(p.key, step.result);
    forall e | e in t.shared.order ensures Uploaded(t.shared, e.key, e.fileId) {
      if e in s.shared.order {
        UploadStays(s.shared, t.shared, e.key, e.fileId);
      }
    }
  }

  lemma FinishKeepsFlight(s: System, step: Step)
    requires SystemOk(s) && Enabled(s, step) && step.Finish?
    ensures FlightOk(Next(s, step)) && CacheOk(Next(s, step).shared)
  {
    hide Find, Distinct, CallerOk, CacheOk, Pushed;
    FinishKeepsCache(s, step);
    var t := Next(s, step);
    forall key | key in t.shared.pending
      ensures exists c :: c in t.callers && t.callers[c] == Uploading(key, t.shared.pending[key])
      ensures t.shared.pending[key] !in t.shared.finished
    {
      var c :| c in s.callers && s.callers[c] == Uploading(key, s.shared.pending[key]);
      assert t.callers[c] == s.callers[c];
    }
  }

  lemma FinishKeepsOk(s: System, step: Step)
    requires SystemOk(s) && Enabled(s, step) && step.Finish?
    ensures SystemOk(Next(s, step))
  {
    hide Find, Distinct, CacheOk, Pushed, Uploaded;
    FinishKeepsFlight(s, step);
    var p, t := s.callers[step.caller], Next(s, step);
    assert t.shared.finished[p.ticket] == Upload(p.key, step.result);
    forall c | c in t.callers ensures CallerOk(t, t.callers[c]) {
      if c != step.caller {
        assert CallerOk(s, s.callers[c]);
        if s.callers[c].Returned? && s.callers[c].source.None? {
          UploadStays(s.shared, t.shared, s.callers[c].key, s.callers[c].result.value);
        }
      }
    }
  }

  lemma UploadStays(s: Shared, t: Shared, key: Key, fileId: string)
    requires Uploaded(s, key, fileId) && forall u | u in s.finished :: u in t.finished && t.finished[u] == s.finished[u]
    ensures Uploaded(t, key, fileId)
  {
    var u :| u in s.finished && s.finished[u] == Upload(key, Ok(fileId));
    assert t.finished[u] == Upload(key, Ok(fileId));
  }

  lemma WakeKeepsOk(s: System, step: Step)
    requires SystemOk(s) && Enabled(s, step) && step.Wake?
    ensures SystemOk(Next(s, step))
  {
    var t := Next(s, step);
    var p := s.callers[step.caller];
    assert CallerOk(s, p);
    assert s.shared.finished[p.ticket].key == p.key;
    forall key | key in t.shared.pending
      ensures exists c :: c in t.callers && t.callers[c] == Uploading(key, t.shared.pending[key])
    {
      var c :| c in s.callers && s.callers[c] == Uploading(key, s.shared.pending[key]);
      assert t.callers[c] == s.callers[c];
    }
    forall c | c in t.callers ensures CallerOk(t, t.callers[c]) {
      if c != step.caller {
        assert CallerOk(s, s.callers[c]);
      }
    }
    hide Find, Distinct, Uploaded;
  }

  // ---------- every run ----------

  /** The state after the steps; None if one of them was not enabled. */
  function Run(steps: seq<Step>): Option<System> {
    if steps == [] then Some(FIRST)
    else
      match Run(steps[..|steps| - 1])
      case None => None
      case Some(s) => if Enabled(s, steps[|steps| - 1]) then Some(Next(s, steps[|steps| - 1])) else None
  }

  lemma StepKeepsOk(s: System, step: Step)
    requires SystemOk(s) && Enabled(s, step)
    ensures SystemOk(Next(s, step))
  {
    hide SystemOk, Next, Enabled;
    match step {
      case Ask(_, _) => AskKeepsOk(s, step);
      case Finish(_, _) => FinishKeepsOk(s, step);
      case Wake(_) => WakeKeepsOk(s, step);
    }
  }

  /** Over every interleaving of any number of callers: the cache holds at most 512 entries, no key twice,
      and only ids that were uploaded for their key; keys in flight are not cached; no key is uploaded twice
      at a time; every caller gets an id that was uploaded for its key, or the very result, failures
      included, of the upload it waited for. */
  lemma {:induction false} EveryRunIsOk(steps: seq<Step>)
    requires Run(steps).Some?
    ensures SystemOk(Run(steps).value)
  {
    hide SystemOk, Next, Enabled;
    if steps == [] {
      FirstIsOk();
    } else {
      EveryRunIsOk(steps[..|steps| - 1]);
      StepKeepsOk(Run(steps[..|steps| - 1]).value, steps[|steps| - 1]);
    }
  }

  lemma FirstIsOk()
    ensures SystemOk(FIRST)
  {
  }

  /** At most one caller uploads a key at a time. */
  lemma OneUploadPerKey(steps: seq<Step>, c: Caller, d: Caller)
    requires Run(steps).Some?
    requires c in Run(steps).value.callers && d in Run(steps).value.callers
    requires Run(steps).value.callers[c].Uploading? && Run(steps).value.callers[d].Uploading?
    requires Run(steps).value.callers[c].key == Run(steps).value.callers[d].key
    ensures c == d
  {
    EveryRunIsOk(steps);
    hide Run;
  }

  // ---------- the reference: most recently used first ----------

  function Minus(keys: seq<Key>, key: Key): seq<Key> {
    if keys == [] then []
    else if keys[0] == key then Minus(keys[1..], key)
    else [keys[0]] + Minus(keys[1..], key)
  }

  /** All keys ever used, the one used last first, each once. */
  function Recent(uses: seq<Key>): seq<Key> {
    if uses == [] then [] else [uses[0]] + Minus(Recent(uses[1..]), uses[0])
  }

  function AtMost(keys: seq<Key>, n: nat): seq<Key> {
    if |keys| <= n then keys else keys[..n]
  }

  lemma {:induction false} MinusHolds(keys: seq<Key>, key: Key)
    ensures forall k :: k in Minus(keys, key) <==> k in keys && k != key
    ensures key !in keys ==> Minus(keys, key) == keys
    ensures |Minus(keys, key)| <= |keys|
  {
    if keys != [] {
      MinusHolds(keys[1..], key);
      assert keys == [keys[0]] + keys[1..];
    }
  }

  ghost predicate NoRepeat(keys: seq<Key>) {
    forall j, k | 0 <= j < k < |keys| :: keys[j] != keys[k]
  }

  lemma NoRepeatSplit(key: Key, rest: seq<Key>)
    ensures NoRepeat([key] + rest) <==> NoRepeat(rest) && key !in rest
  {
    var all := [key] + rest;
    assert forall k | 0 <= k < |rest| :: all[k + 1] == rest[k];
    if NoRepeat(rest) && key !in rest {
      assert forall k | 1 <= k < |all| :: all[k] in rest;
    }
    if NoRepeat(all) {
      forall j, k | 0 <= j < k < |rest| ensures rest[j] != rest[k] {
        assert all[j + 1] != all[k + 1];
      }
      forall k | 0 <= k < |rest| ensures rest[k] != key {
        assert all[0] != all[k + 1];
      }
    }
  }

  lemma {:induction false} MinusNoRepeat(keys: seq<Key>, key: Key)
    requires NoRepeat(keys)
    ensures NoRepeat(Minus(keys, key)) && |Minus(keys, key)| == |keys| - (if key in keys then 1 else 0)
  {
    if keys != [] {
      hide NoRepeat;
      var rest := keys[1..];
      assert keys == [keys[0]] + rest;
      NoRepeatSplit(keys[0], rest);
      MinusNoRepeat(rest, key);
      MinusHolds(rest, key);
      NoRepeatSplit(keys[0], Minus(rest, key));
    }
  }

  lemma {:induction false} RecentNoRepeat(uses: seq<Key>)
    ensures NoRepeat(Recent(uses))
  {
    if uses != [] {
      RecentNoRepeat(uses[1..]);
      MinusNoRepeat(Recent(uses[1..]), uses[0]);
      MinusHolds(Recent(uses[1..]), uses[0]);
      NoRepeatSplit(uses[0], Minus(Recent(uses[1..]), uses[0]));
    }
  }

  /** Taking a key out of the first `n` keys and out of all of them. */
  lemma {:induction false} MinusFront(keys: seq<Key>, key: Key, n: nat)
    requires NoRepeat(keys) && n <= |keys|
    ensures key in keys[..n] ==> |Minus(keys, key)| >= n - 1 && Minus(keys[..n], key) == Minus(keys, key)[..n - 1]
    ensures key !in keys[..n] ==> |Minus(keys, key)| >= n && keys[..n] == Minus(keys, key)[..n]
  {
    if n > 0 {
      var tail := keys[1..];
      assert keys[..n][1..] == tail[..n - 1];
      assert forall k | 0 <= k < |tail| :: tail[k] == keys[k + 1];
      MinusFront(tail, key, n - 1);
      assert keys[..n] == [keys[0]] + tail[..n - 1];
      if keys[0] == key {
        assert key !in tail[..n - 1];
        MinusHolds(tail[..n - 1], key);
      }
    }
  }

  lemma {:induction false} KeysWithout(order: seq<Entry>, key: Key)
    ensures Keys(Without(order, key)) == Minus(Keys(order), key)
  {
    if order != [] {
      KeysWithout(order[1..], key);
      assert Keys(order)[1..] == Keys(order[1..]);
      if order[0].key != key {
        assert Keys([order[0]] + Without(order[1..], key)) == [order[0].key] + Keys(Without(order[1..], key));
      }
    }
  }

  lemma KeysFound(order: seq<Entry>, key: Key)
    ensures Find(order, key).Some? <==> key in Keys(order)
  {
    NotFound(order, key);
    if Find(order, key).Some? {
      var k :| 0 <= k < |order| && order[k] == Entry(key, Find(order, key).value);
      assert Keys(order)[k] == key;
    }
  }

  lemma RecentStep(key: Key, uses: seq<Key>)
    ensures Recent([key] + uses) == [key] + Minus(Recent(uses), key)
  {
    assert ([key] + uses)[1..] == uses;
  }

  lemma HitKeepsRecent(order: seq<Entry>, key: Key, uses: seq<Key>)
    requires Find(order, key).Some? && Keys(order) == AtMost(Recent(uses), MAX_ENTRIES)
    ensures Keys(MovedToFront(order, key)) == AtMost(Recent([key] + uses), MAX_ENTRIES)
  {
    hide Minus, Without, Find, NoRepeat, Recent;
    var r := Recent(uses);
    RecentNoRepeat(uses);
    KeysFound(order, key);
    KeysWithout(order, key);
    RecentStep(key, uses);
    var n := if |r| <= MAX_ENTRIES then |r| else MAX_ENTRIES;
    assert r[..n] == Keys(order);
    assert key in r[..n];
    MinusFront(r, key, n);
    MinusNoRepeat(r, key);
    assert Keys([Entry(key, Find(order, key).value)] + Without(order, key)) == [key] + Keys(Without(order, key));
    assert ([key] + Minus(r, key))[..n] == [key] + Minus(r, key)[..n - 1];
  }

  lemma StoreKeepsRecent(order: seq<Entry>, entry: Entry, uses: seq<Key>)
    requires Find(order, entry.key).None? && Keys(order) == AtMost(Recent(uses), MAX_ENTRIES)
    ensures Keys(Pushed(order, entry)) == AtMost(Recent([entry.key] + uses), MAX_ENTRIES)
  {
    hide Minus, Find, NoRepeat, Recent;
    var r := Recent(uses);
    RecentNoRepeat(uses);
    KeysFound(order, entry.key);
    RecentStep(entry.key, uses);
    var n := if |r| <= MAX_ENTRIES then |r| else MAX_ENTRIES;
    assert r[..n] == Keys(order);
    assert entry.key !in r[..n];
    MinusFront(r, entry.key, n);
    MinusHolds(r, entry.key);
    var longer := [entry] + order;
    assert Keys(longer) == [entry.key] + Keys(order);
    assert |r| < MAX_ENTRIES ==> entry.key !in r && Minus(r, entry.key) == r && Pushed(order, entry) == longer;
    if |r| >= MAX_ENTRIES {
      assert Keys(longer[..MAX_ENTRIES]) == [entry.key] + r[..MAX_ENTRIES - 1];
      assert ([entry.key] + Minus(r, entry.key))[..MAX_ENTRIES] == [entry.key] + r[..MAX_ENTRIES - 1];
    }
  }

  /** The cache is the simple list it should be: at any moment of any run its keys are the 512 most recently
      used ones, latest first. */
  lemma {:induction false} MostRecentlyUsed(steps: seq<Step>)
    requires Run(steps).Some?
    ensures Keys(Run(steps).value.shared.order) == AtMost(Recent(Run(steps).value.uses), 512)
  {
    if steps == [] {
      assert Keys([]) == [];
    } else {
      hide SystemOk, MovedToFront, Pushed, Recent, AtMost;
      var shorter := steps[..|steps| - 1];
      MostRecentlyUsed(shorter);
      StepKeepsRecent(shorter, Run(shorter).value, steps[|steps| - 1]);
    }
  }

  lemma StepKeepsRecent(steps: seq<Step>, s: System, step: Step)
    requires Run(steps) == Some(s) && Enabled(s, step)
    requires Keys(s.shared.order) == AtMost(Recent(s.uses), MAX_ENTRIES)
    ensures Keys(Next(s, step).shared.order) == AtMost(Recent(Next(s, step).uses), MAX_ENTRIES)
  {
    hide MovedToFront, Pushed, Recent, AtMost, Find, Run;
    if step.Ask? {
      if Find(s.shared.order, step.key).Some? {
        HitKeepsRecent(s.shared.order, step.key, s.uses);
      }
    } else if step.Finish? && step.result.Ok? {
      EveryRunIsOk(steps);
      StoreKeepsRecent(s.shared.order, Entry(s.callers[step.caller].key, step.result.value), s.uses);
    }
  }
}

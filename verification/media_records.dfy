/**
 * Media-message records of the backing store and the client's synchronised list
 * of them (src/modules/aiMediaMessages/dbAiMediaMessageUtils.ts).
 *
 * A raw record from the store is a JSON object; the schema accepts it when the
 * eight fields below all hold strings, and keeps exactly those eight fields.
 */
module MediaRecords {
  import opened Wrappers
  import opened Seqs

  datatype JsonValue = JString(str: string) | JNumber(num: int) | JBool(flag: bool) | JNull

  /** A record as the store sends it: field name to JSON value. */
  type Payload = map<string, JsonValue>

  datatype MediaRecord = MediaRecord(
    collectionId: string,
    collectionName: string,
    id: string,
    threadId: string,
    file: string,
    aiTextMessageId: string,
    created: string,
    updated: string)

  /** The field names the schema requires. */
  const SchemaKeys: set<string> :=
    {"collectionId", "collectionName", "id", "threadId", "file", "aiTextMessageId", "created", "updated"}

  predicate HasString(p: Payload, key: string) {
    key in p && p[key].JString?
  }

  /** The record written back as a payload: exactly the schema's fields. */
  function ToPayload(r: MediaRecord): (p: Payload)
    ensures p.Keys == SchemaKeys
  {
    map[
      "collectionId" := JString(r.collectionId),
      "collectionName" := JString(r.collectionName),
      "id" := JString(r.id),
      "threadId" := JString(r.threadId),
      "file" := JString(r.file),
      "aiTextMessageId" := JString(r.aiTextMessageId),
      "created" := JString(r.created),
      "updated" := JString(r.updated)]
  }

  /** `aiMediaMessageRecordSchema.safeParse(p)`: succeeds exactly when every
      schema field holds a string, and then keeps those fields and no others. */
  function ParseMediaRecord(p: Payload): (r: Option<MediaRecord>)
    ensures r.Some? <==> forall k :: k in SchemaKeys ==> HasString(p, k)
    ensures r.Some? ==> ToPayload(r.value) == map k | k in SchemaKeys :: p[k]
  {
    if && HasString(p, "collectionId") && HasString(p, "collectionName")
       && HasString(p, "id") && HasString(p, "threadId") && HasString(p, "file")
       && HasString(p, "aiTextMessageId") && HasString(p, "created") && HasString(p, "updated")
    then
      Some(MediaRecord(p["collectionId"].str, p["collectionName"].str, p["id"].str,
        p["threadId"].str, p["file"].str, p["aiTextMessageId"].str, p["created"].str,
        p["updated"].str))
    else None
  }

  /** Parsing what a record writes gives the record back. */
  lemma ParseToPayload(r: MediaRecord)
    ensures ParseMediaRecord(ToPayload(r)) == Some(r)
  {
  }

  predicate IsParsed(o: Option<MediaRecord>) {
    o.Some?
  }

  function ParsedValue(o: Option<MediaRecord>): MediaRecord
    requires o.Some?
  {
    o.value
  }

  /** The listed records that pass the schema, parsed, in fetched order; the
      others are dropped without an error. */
  function ValidatedSnapshot(fetched: seq<Payload>): seq<MediaRecord> {
    var parsed := Filter(IsParsed, Map(ParseMediaRecord, fetched));
    seq(|parsed|, i requires 0 <= i < |parsed| => ParsedValue(parsed[i]))
  }

  /** The snapshot of a concatenation is the concatenation of the snapshots:
      the kept records stay in fetched order. */
  lemma SnapshotConcat(a: seq<Payload>, b: seq<Payload>)
    ensures ValidatedSnapshot(a + b) == ValidatedSnapshot(a) + ValidatedSnapshot(b)
  {
    MapConcat(ParseMediaRecord, a, b);
    FilterConcat(IsParsed, Map(ParseMediaRecord, a), Map(ParseMediaRecord, b));
  }

  /** One fetched record: kept (parsed) when valid, dropped silently otherwise. */
  lemma SnapshotSingle(p: Payload)
    ensures ValidatedSnapshot([p]) == (if ParseMediaRecord(p).Some? then [ParseMediaRecord(p).value] else [])
  {
    assert Map(ParseMediaRecord, [p]) == [ParseMediaRecord(p)];
    assert [ParseMediaRecord(p)][1..] == [];
  }

  /** Every kept record is the parse of some fetched payload, and no more
      records are kept than were fetched. */
  lemma SnapshotFromFetched(fetched: seq<Payload>)
    ensures |ValidatedSnapshot(fetched)| <= |fetched|
    ensures forall r :: r in ValidatedSnapshot(fetched) ==>
              exists i :: 0 <= i < |fetched| && ParseMediaRecord(fetched[i]) == Some(r)
  {
    var parsed := Filter(IsParsed, Map(ParseMediaRecord, fetched));
    forall r | r in ValidatedSnapshot(fetched)
      ensures exists i :: 0 <= i < |fetched| && ParseMediaRecord(fetched[i]) == Some(r)
    {
      var j :| 0 <= j < |parsed| && ParsedValue(parsed[j]) == r;
      FilterMember(IsParsed, Map(ParseMediaRecord, fetched), parsed[j]);
      var i :| 0 <= i < |fetched| && Map(ParseMediaRecord, fetched)[i] == parsed[j];
      assert ParseMediaRecord(fetched[i]) == Some(r);
    }
  }

  /** A snapshot of well-formed records is taken whole, in order. */
  lemma {:induction false} SnapshotOfValidRecords(rs: seq<MediaRecord>)
    ensures ValidatedSnapshot(Map(ToPayload, rs)) == rs
  {
    if |rs| > 0 {
      var head, tail := rs[0], rs[1..];
      var p := ToPayload(head);
      SnapshotOfValidRecords(tail);
      assert Map(ToPayload, rs) == [p] + Map(ToPayload, tail);
      SnapshotConcat([p], Map(ToPayload, tail));
      SnapshotSingle(p);
      ParseToPayload(head);
      calc {
        ValidatedSnapshot(Map(ToPayload, rs));
        ValidatedSnapshot([p]) + ValidatedSnapshot(Map(ToPayload, tail));
        [head] + tail;
        rs;
      }
    }
  }

  /** `listAiMediaMessageRecords`: the list call either fails (`None`, its
      exception caught) or yields the validated snapshot. */
  function ListMediaRecords(fetched: Option<seq<Payload>>): (r: Option<seq<MediaRecord>>)
    ensures r.None? <==> fetched.None?
    ensures r.Some? ==> |r.value| <= |fetched.value|
  {
    SnapshotFromFetched(if fetched.Some? then fetched.value else []);
    if fetched.None? then None else Some(ValidatedSnapshot(fetched.value))
  }

  /** `createAiMediaMessageRecord`: `response` is the store's answer, `None`
      when the create call threw; a throw becomes a failure, never an exception. */
  function CreatedRecord(response: Option<Payload>): (r: Option<MediaRecord>)
    ensures response.None? ==> r.None?
    ensures response.Some? ==> r == ParseMediaRecord(response.value)
  {
    match response
    case None => None
    case Some(p) => ParseMediaRecord(p)
  }

  /** A record the store accepted and echoed back is returned as created. */
  lemma CreatedRecordEcho(r: MediaRecord)
    ensures CreatedRecord(Some(ToPayload(r))) == Some(r)
  {
    ParseToPayload(r);
  }

  // ---------------------------------------------------------------------------
  // The change feed

  /** `e.action`; the store sends `create`, `update` or `delete`. */
  datatype Action = Create | Update | Delete | OtherAction

  datatype ChangeEvent = ChangeEvent(action: Action, record: Payload)

  function HasOtherId(id: string): MediaRecord -> bool {
    (x: MediaRecord) => x.id != id
  }

  /** The list without the records that carry `id`. */
  function WithoutId(rs: seq<MediaRecord>, id: string): seq<MediaRecord> {
    Filter(HasOtherId(id), rs)
  }

  /** The list after one event, as the subscription callback leaves it. */
  function Reconcile(rs: seq<MediaRecord>, e: ChangeEvent): seq<MediaRecord> {
    var parsed := ParseMediaRecord(e.record);
    match e.action
    case Create => if parsed.Some? then rs + [parsed.value] else rs
    case Update => if parsed.Some? then WithoutId(rs, parsed.value.id) + [parsed.value] else rs
    case Delete => if parsed.Some? then WithoutId(rs, parsed.value.id) else rs
    case OtherAction => rs
  }

  /** Whether the callback reaches `onChange`: an invalid update or delete
      returns early, every other event (even an invalid create) notifies. */
  predicate NotifiesChange(e: ChangeEvent) {
    match e.action
    case Update => ParseMediaRecord(e.record).Some?
    case Delete => ParseMediaRecord(e.record).Some?
    case _ => true
  }

  /** The events' effect one after another. */
  function ReplayEvents(rs: seq<MediaRecord>, es: seq<ChangeEvent>): seq<MediaRecord>
    decreases |es|
  {
    if |es| == 0 then rs else ReplayEvents(Reconcile(rs, es[0]), es[1..])
  }

  function HasId(id: string): MediaRecord -> bool {
    (x: MediaRecord) => x.id == id
  }

  /** How many records carry `id`. */
  function CountId(rs: seq<MediaRecord>, id: string): nat {
    |Filter(HasId(id), rs)|
  }

  function Ids(rs: seq<MediaRecord>): set<string> {
    set x | x in rs :: x.id
  }

  /** A valid create appends the record after all earlier ones, whatever ids
      they carry; there is no duplicate check. */
  lemma CreateAppends(rs: seq<MediaRecord>, e: ChangeEvent)
    requires e.action == Create && ParseMediaRecord(e.record).Some?
    ensures Reconcile(rs, e) == rs + [ParseMediaRecord(e.record).value]
    ensures CountId(Reconcile(rs, e), ParseMediaRecord(e.record).value.id)
            == CountId(rs, ParseMediaRecord(e.record).value.id) + 1
    ensures NotifiesChange(e)
  {
    var r := ParseMediaRecord(e.record).value;
    FilterConcat(HasId(r.id), rs, [r]);
  }

  /** Two valid creates with one id leave two more entries with that id. */
  lemma DuplicateCreatesKeepBoth(rs: seq<MediaRecord>, e1: ChangeEvent, e2: ChangeEvent)
    requires e1.action == Create && e2.action == Create
    requires ParseMediaRecord(e1.record).Some? && ParseMediaRecord(e2.record).Some?
    requires ParseMediaRecord(e1.record).value.id == ParseMediaRecord(e2.record).value.id
    ensures CountId(ReplayEvents(rs, [e1, e2]), ParseMediaRecord(e1.record).value.id)
            == CountId(rs, ParseMediaRecord(e1.record).value.id) + 2
  {
    CreateAppends(rs, e1);
    CreateAppends(Reconcile(rs, e1), e2);
    assert [e1, e2][1..] == [e2];
    assert [e2][1..] == [];
    assert ReplayEvents(rs, [e1, e2]) == ReplayEvents(Reconcile(rs, e1), [e2]);
    assert ReplayEvents(Reconcile(rs, e1), [e2]) == ReplayEvents(Reconcile(Reconcile(rs, e1), e2), []);
  }

  /** No record with `id` is left, and the others stay in order. */
  lemma WithoutIdRemovesAll(rs: seq<MediaRecord>, id: string)
    ensures CountId(WithoutId(rs, id), id) == 0
    ensures forall x :: x in WithoutId(rs, id) <==> x in rs && x.id != id
  {
    var w := WithoutId(rs, id);
    FilterDropsAll(HasId(id), w);
    forall x ensures x in w <==> x in rs && x.id != id {
      FilterMember(HasOtherId(id), rs, x);
    }
  }

  /** Removing an id that no record carries changes nothing. */
  lemma WithoutAbsentId(rs: seq<MediaRecord>, id: string)
    requires id !in Ids(rs)
    ensures WithoutId(rs, id) == rs
  {
    FilterKeepsAll(HasOtherId(id), rs);
  }

  /** A valid update replaces every record with its id by one copy of the new
      record at the end; the others keep their relative order. An unknown id
      behaves like a create. */
  lemma UpdateReplaces(rs: seq<MediaRecord>, e: ChangeEvent)
    requires e.action == Update && ParseMediaRecord(e.record).Some?
    ensures var r := ParseMediaRecord(e.record).value;
            && Reconcile(rs, e) == WithoutId(rs, r.id) + [r]
            && CountId(Reconcile(rs, e), r.id) == 1
            && (r.id !in Ids(rs) ==> Reconcile(rs, e) == rs + [r])
    ensures NotifiesChange(e)
  {
    var r := ParseMediaRecord(e.record).value;
    WithoutIdRemovesAll(rs, r.id);
    FilterConcat(HasId(r.id), WithoutId(rs, r.id), [r]);
    if r.id !in Ids(rs) {
      WithoutAbsentId(rs, r.id);
    }
  }

  /** A valid delete removes every record with its id; deleting an absent id is a no-op. */
  lemma DeleteRemoves(rs: seq<MediaRecord>, e: ChangeEvent)
    requires e.action == Delete && ParseMediaRecord(e.record).Some?
    ensures var id := ParseMediaRecord(e.record).value.id;
            && Reconcile(rs, e) == WithoutId(rs, id)
            && CountId(Reconcile(rs, e), id) == 0
            && (id !in Ids(rs) ==> Reconcile(rs, e) == rs)
    ensures NotifiesChange(e)
  {
    var id := ParseMediaRecord(e.record).value.id;
    WithoutIdRemovesAll(rs, id);
    if id !in Ids(rs) {
      WithoutAbsentId(rs, id);
    }
  }

  /** An invalid payload never changes the list; only an invalid update or
      delete skips the notification. */
  lemma InvalidPayloadIgnored(rs: seq<MediaRecord>, e: ChangeEvent)
    requires ParseMediaRecord(e.record).None?
    ensures Reconcile(rs, e) == rs
    ensures NotifiesChange(e) <==> e.action == Create || e.action == OtherAction
  {
  }

  // ---------------------------------------------------------------------------
  // Agreement with a reference map keyed by id

  /** The list read as a map from id to record (a later entry wins). */
  function ById(rs: seq<MediaRecord>): map<string, MediaRecord>
    decreases |rs|
  {
    if |rs| == 0 then map[] else ById(rs[..|rs| - 1])[rs[|rs| - 1].id := rs[|rs| - 1]]
  }

  /** No id appears twice. */
  predicate UniqueIds(rs: seq<MediaRecord>)
    decreases |rs|
  {
    |rs| == 0 || (rs[0].id !in Ids(rs[1..]) && UniqueIds(rs[1..]))
  }

  /** The same event applied directly to a map keyed by id. */
  function ApplyToMap(m: map<string, MediaRecord>, e: ChangeEvent): map<string, MediaRecord> {
    var parsed := ParseMediaRecord(e.record);
    if parsed.None? then m
    else match e.action
      case Create => m[parsed.value.id := parsed.value]
      case Update => m[parsed.value.id := parsed.value]
      case Delete => m - {parsed.value.id}
      case OtherAction => m
  }

  lemma ByIdAppend(rs: seq<MediaRecord>, r: MediaRecord)
    ensures ById(rs + [r]) == ById(rs)[r.id := r]
  {
    assert (rs + [r])[..|rs|] == rs;
  }

  lemma WithoutIdAppend(rs: seq<MediaRecord>, r: MediaRecord, id: string)
    ensures WithoutId(rs + [r], id) == WithoutId(rs, id) + (if r.id != id then [r] else [])
  {
    FilterConcat(HasOtherId(id), rs, [r]);
    assert [r][1..] == [];
  }

  lemma MapUpdateRemove(m: map<string, MediaRecord>, k: string, v: MediaRecord, id: string)
    ensures k != id ==> (m - {id})[k := v] == m[k := v] - {id}
    ensures k == id ==> m[k := v] - {id} == m - {id}
    ensures k == id ==> (m - {id})[k := v] == m[k := v]
  {
  }

  lemma ByIdWithoutIdStep(front: seq<MediaRecord>, last: MediaRecord, id: string)
    requires ById(WithoutId(front, id)) == ById(front) - {id}
    ensures ById(WithoutId(front + [last], id)) == ById(front + [last]) - {id}
  {
    var mf := ById(front);
    WithoutIdAppend(front, last, id);
    ByIdAppend(front, last);
    MapUpdateRemove(mf, last.id, last, id);
    if last.id != id {
      ByIdAppend(WithoutId(front, id), last);
    } else {
      assert WithoutId(front, id) + [] == WithoutId(front, id);
    }
  }

  /** Dropping an id from the list drops exactly that key from the map. */
  lemma {:induction false} ByIdWithoutId(rs: seq<MediaRecord>, id: string)
    ensures ById(WithoutId(rs, id)) == ById(rs) - {id}
    decreases |rs|
  {
    if |rs| > 0 {
      var front := rs[..|rs| - 1];
      ByIdWithoutId(front, id);
      ByIdWithoutIdStep(front, rs[|rs| - 1], id);
      assert rs == front + [rs[|rs| - 1]];
    }
  }

  lemma {:induction false} IdsAppend(rs: seq<MediaRecord>, r: MediaRecord)
    ensures Ids(rs + [r]) == Ids(rs) + {r.id}
  {
    forall id | id in Ids(rs + [r]) ensures id in Ids(rs) + {r.id} {
      var x :| x in rs + [r] && x.id == id;
    }
    forall id | id in Ids(rs) + {r.id} ensures id in Ids(rs + [r]) {
      if id in Ids(rs) {
        var x :| x in rs && x.id == id;
        assert x in rs + [r];
      } else {
        assert r in rs + [r];
      }
    }
  }

  lemma {:induction false} UniqueIdsAppend(rs: seq<MediaRecord>, r: MediaRecord)
    requires UniqueIds(rs) && r.id !in Ids(rs)
    ensures UniqueIds(rs + [r])
    decreases |rs|
  {
    if |rs| > 0 {
      assert (rs + [r])[1..] == rs[1..] + [r];
      assert rs[0] in rs;
      assert Ids(rs[1..]) <= Ids(rs) by {
        forall id | id in Ids(rs[1..]) ensures id in Ids(rs) {
          var x :| x in rs[1..] && x.id == id;
          assert x in rs;
        }
      }
      UniqueIdsAppend(rs[1..], r);
      IdsAppend(rs[1..], r);
    } else {
      assert [] + [r] == [r];
      assert [r][1..] == [];
    }
  }

  lemma {:induction false} UniqueIdsFilter(p: MediaRecord -> bool, rs: seq<MediaRecord>)
    requires UniqueIds(rs)
    ensures UniqueIds(Filter(p, rs))
    decreases |rs|
  {
    if |rs| > 0 {
      UniqueIdsFilter(p, rs[1..]);
      var rest := Filter(p, rs[1..]);
      if p(rs[0]) {
        forall x | x in rest ensures x.id != rs[0].id {
          FilterMember(p, rs[1..], x);
        }
        assert Filter(p, rs) == [rs[0]] + rest;
        assert ([rs[0]] + rest)[1..] == rest;
      } else {
        assert Filter(p, rs) == rest;
      }
    }
  }

  lemma UpdateMatchesMap(rs: seq<MediaRecord>, r: MediaRecord)
    requires UniqueIds(rs)
    ensures UniqueIds(WithoutId(rs, r.id) + [r])
    ensures ById(WithoutId(rs, r.id) + [r]) == ById(rs)[r.id := r]
  {
    var w := WithoutId(rs, r.id);
    assert UniqueIds(w + [r]) by {
      UniqueIdsFilter(HasOtherId(r.id), rs);
      WithoutIdRemovesAll(rs, r.id);
      UniqueIdsAppend(w, r);
    }
    ByIdAppend(w, r);
    ByIdWithoutId(rs, r.id);
    MapUpdateRemove(ById(rs), r.id, r, r.id);
  }

  lemma DeleteMatchesMap(rs: seq<MediaRecord>, id: string)
    requires UniqueIds(rs)
    ensures UniqueIds(WithoutId(rs, id))
    ensures ById(WithoutId(rs, id)) == ById(rs) - {id}
  {
    UniqueIdsFilter(HasOtherId(id), rs);
    ByIdWithoutId(rs, id);
  }

  /** Convergence: on a list with unique ids, an event whose create (if any)
      carries a new id keeps the ids unique and changes the list exactly as
      it changes the reference map. */
  lemma ReconcileMatchesMap(rs: seq<MediaRecord>, e: ChangeEvent)
    requires UniqueIds(rs)
    requires e.action == Create && ParseMediaRecord(e.record).Some? ==>
               ParseMediaRecord(e.record).value.id !in Ids(rs)
    ensures UniqueIds(Reconcile(rs, e))
    ensures ById(Reconcile(rs, e)) == ApplyToMap(ById(rs), e)
  {
    var parsed := ParseMediaRecord(e.record);
    if parsed.Some? {
      var r := parsed.value;
      if e.action == Create {
        UniqueIdsAppend(rs, r);
        ByIdAppend(rs, r);
      } else if e.action == Update {
        UpdateMatchesMap(rs, r);
      } else if e.action == Delete {
        DeleteMatchesMap(rs, r.id);
      }
    }
  }

  /** Every create in the stream names an id not present when it arrives. */
  predicate CreatesAreFresh(rs: seq<MediaRecord>, es: seq<ChangeEvent>)
    decreases |es|
  {
    |es| == 0 ||
    ((es[0].action == Create && ParseMediaRecord(es[0].record).Some? ==>
        ParseMediaRecord(es[0].record).value.id !in Ids(rs))
     && CreatesAreFresh(Reconcile(rs, es[0]), es[1..]))
  }

  function ApplyAllToMap(m: map<string, MediaRecord>, es: seq<ChangeEvent>): map<string, MediaRecord>
    decreases |es|
  {
    if |es| == 0 then m else ApplyAllToMap(ApplyToMap(m, es[0]), es[1..])
  }

  /** Convergence over a whole stream of events. */
  lemma {:induction false} ReplayMatchesMap(rs: seq<MediaRecord>, es: seq<ChangeEvent>)
    requires UniqueIds(rs) && CreatesAreFresh(rs, es)
    ensures UniqueIds(ReplayEvents(rs, es))
    ensures ById(ReplayEvents(rs, es)) == ApplyAllToMap(ById(rs), es)
    decreases |es|
  {
    if |es| > 0 {
      ReconcileMatchesMap(rs, es[0]);
      ReplayMatchesMap(Reconcile(rs, es[0]), es[1..]);
    }
  }

  /** Read as a map by id (a later entry winning), any list changes under any
      event exactly as the reference map does, duplicate ids included. */
  lemma ReconcileById(rs: seq<MediaRecord>, e: ChangeEvent)
    ensures ById(Reconcile(rs, e)) == ApplyToMap(ById(rs), e)
  {
    var parsed := ParseMediaRecord(e.record);
    if parsed.Some? {
      var r := parsed.value;
      if e.action == Create {
        ByIdAppend(rs, r);
      } else if e.action == Update {
        ByIdAppend(WithoutId(rs, r.id), r);
        ByIdWithoutId(rs, r.id);
        MapUpdateRemove(ById(rs), r.id, r, r.id);
      } else if e.action == Delete {
        ByIdWithoutId(rs, r.id);
      }
    }
  }

  /** The same agreement over any stream of events. */
  lemma {:induction false} ReplayById(rs: seq<MediaRecord>, es: seq<ChangeEvent>)
    ensures ById(ReplayEvents(rs, es)) == ApplyAllToMap(ById(rs), es)
    decreases |es|
  {
    if |es| > 0 {
      ReconcileById(rs, es[0]);
      ReplayById(Reconcile(rs, es[0]), es[1..]);
    }
  }

  // ---------------------------------------------------------------------------
  // smartSubscribeToAiMediaMessageRecords

  /** What the subscribe call returns. */
  datatype SubscribeOutcome = Listening | ListFailed | SubscribeFailed

  /**
   * One call of `smartSubscribeToAiMediaMessageRecords` and the closure state
   * its change callback keeps. `changes` records the argument of every
   * `onChange` call and `errorCalls` counts the `onError` calls.
   */
  class MediaRecordSubscription {
    var allRecords: seq<MediaRecord>
    var changes: seq<seq<MediaRecord>>
    var errorCalls: nat
    var listening: bool
    var outcome: SubscribeOutcome

    /** `fetched` is the list call's result (`None` when it failed);
        `subscribeThrows` says whether opening the change feed throws. */
    constructor Subscribe(fetched: Option<seq<Payload>>, subscribeThrows: bool)
      ensures fetched.None? ==>
                && outcome == ListFailed && errorCalls == 1
                && changes == [] && !listening && allRecords == []
      ensures fetched.Some? ==>
                && allRecords == ValidatedSnapshot(fetched.value)
                && changes == [allRecords]
                && listening == !subscribeThrows
                && errorCalls == (if subscribeThrows then 1 else 0)
                && outcome == (if subscribeThrows then SubscribeFailed else Listening)
    {
      var listed := ListMediaRecords(fetched);
      if listed.None? {
        // onError, then the failed list result is returned
        allRecords, changes, errorCalls := [], [], 1;
        listening, outcome := false, ListFailed;
      } else {
        // onChange(allRecords), then the change feed is opened
        allRecords, changes := listed.value, [listed.value];
        if subscribeThrows {
          errorCalls, listening, outcome := 1, false, SubscribeFailed;
        } else {
          errorCalls, listening, outcome := 0, true, Listening;
        }
      }
    }

    /** The change callback, for one event. */
    method OnEvent(e: ChangeEvent)
      requires listening
      modifies this
      ensures allRecords == Reconcile(old(allRecords), e)
      ensures changes == old(changes) + (if NotifiesChange(e) then [allRecords] else [])
      ensures errorCalls == old(errorCalls) && listening && outcome == old(outcome)
    {
      if e.action == Create {
        var parsed := ParseMediaRecord(e.record);
        if parsed.Some? {
          allRecords := allRecords + [parsed.value];
        }
      }
      if e.action == Update {
        var parsed := ParseMediaRecord(e.record);
        if parsed.None? {
          return;
        }
        allRecords := WithoutId(allRecords, parsed.value.id);
        allRecords := allRecords + [parsed.value];
      }
      if e.action == Delete {
        var parsed := ParseMediaRecord(e.record);
        if parsed.None? {
          return;
        }
        allRecords := WithoutId(allRecords, parsed.value.id);
      }
      changes := changes + [allRecords];
    }
  }
}

/** The YANG schema fetcher of the community.yang collection
    (`module_utils/fetch.py`, class `SchemaStore`).

    The NETCONF session is abstracted as a `Device`: its reply to the `<get>`
    of `/netconf-state/schemas` (RFC 6022, section 2.1.3) is the catalogue,
    already parsed into (identifier, version) entries, and its reply to a
    `<get-schema>` request (RFC 6022, section 3.1) is a function of the
    requested identifier and version. A `ConnectionError` is a `Refused`
    reply. The caller's `result` dict is a `FetchResult` object whose two
    fields the store updates in place. */
module Fetch {
  import opened Wrappers
  import opened ImportScan

  /** One entry of the device's schema list. */
  datatype SchemaEntry = SchemaEntry(identifier: string, version: string)

  /** A reply from the NETCONF session: an answer or a `ConnectionError`. */
  datatype Reply<T> = Answer(value: T) | Refused(message: string)

  /** The device as the store sees it. */
  datatype Device = Device(
    catalogue: Reply<seq<SchemaEntry>>,
    getSchema: (string, string) -> Reply<string>)

  const XmltodictMissing :=
    "xmltodict is required to store response in json format but does not appear "
    + "to be installed. It can be installed using `pip install xmltodict`"

  function FailToFetch(schemaId: string): string {
    "Fail to fetch '" + schemaId + "' yang model"
  }

  /** The identifiers of a schema list, in list order. */
  function Identifiers(entries: seq<SchemaEntry>): (ids: seq<string>)
    ensures |ids| == |entries|
    ensures forall i :: 0 <= i < |entries| ==> ids[i] == entries[i].identifier
  {
    seq(|entries|, i requires 0 <= i < |entries| => entries[i].identifier)
  }

  /** The position of the first entry for `id`. */
  function FirstMatch(entries: seq<SchemaEntry>, id: string): (i: nat)
    requires id in Identifiers(entries)
    ensures i < |entries| && entries[i].identifier == id
    ensures forall j :: 0 <= j < i ==> entries[j].identifier != id
  {
    if entries[0].identifier == id then 0 else
      assert Identifiers(entries[1..]) == Identifiers(entries)[1..];
      1 + FirstMatch(entries[1..], id)
  }

  /** The version requested for `id`: that of its first catalogue entry. */
  function VersionOf(entries: seq<SchemaEntry>, id: string): string
    requires id in Identifiers(entries)
  {
    entries[FirstMatch(entries, id)].version
  }

  /** The elements of a sequence, as a set. */
  function Elems(s: seq<string>): (r: set<string>)
    ensures forall x :: x in r <==> x in s
  {
    set x | x in s
  }

  /** The state of `run`'s loop: the queue, `result["fetched"]`,
      `result["failed_yang_models"]`, the `<get-schema>` requests sent, the
      `changed` flag and the counter; `enqueued` lists the imports queued. */
  datatype Progress = Progress(
    queue: seq<string>,
    fetched: map<string, string>,
    failed: seq<string>,
    requested: seq<string>,
    changed: bool,
    counter: int,
    enqueued: seq<string>)

  /** The state `run` starts from. */
  function Start(schemaId: string, fetched: map<string, string>, failed: seq<string>,
                 requested: seq<string>): Progress
  {
    Progress([schemaId], fetched, failed, requested, false, 1, [])
  }

  /** The caller's `result` dict: `result["fetched"]` and
      `result["failed_yang_models"]`. */
  class FetchResult {
    var fetched: map<string, string>
    var failed: seq<string>

    constructor (fetched: map<string, string>, failed: seq<string>)
      ensures this.fetched == fetched && this.failed == failed
    {
      this.fetched := fetched;
      this.failed := failed;
    }
  }

  class SchemaStore {
    const conn: Device
    /** Whether the `xmltodict` import succeeded (`HAS_XMLTODICT`). */
    const hasXmltodict: bool
    /** `_schema_cache`: one (empty) entry per fetched model. */
    var schemaCache: seq<map<string, string>>
    /** `_all_schema_list`: `None` until the catalogue has been read. */
    var allSchemaList: Option<seq<SchemaEntry>>
    /** `_all_schema_identifier_list`. */
    var identifierList: seq<string>
    /** The identifiers of the `<get-schema>` requests sent so far. */
    ghost var requested: seq<string>
    /** The scan of a fetched module for the names it imports; the
        constructor sets it to `ImportNames`, the regular expression
        `import (.+) {` with quotes removed. */
    const importsOf: string -> seq<string>

    /** The catalogue, once read, is the device's, and the identifier list
        holds exactly its identifiers (possibly repeated). */
    ghost predicate Valid()
      reads this
    {
      && (allSchemaList.Some? ==>
            && hasXmltodict
            && conn.catalogue.Answer?
            && allSchemaList.value == conn.catalogue.value
            && Elems(identifierList) == Elems(Identifiers(allSchemaList.value)))
      && (allSchemaList.None? ==> identifierList == [])
    }

    /** Reading the catalogue fails: no xmltodict, or a refused `<get>`. */
    predicate DescriptionFails() {
      !hasXmltodict || conn.catalogue.Refused?
    }

    function DescriptionError(): Error
      requires DescriptionFails()
    {
      if !hasXmltodict then ValueError(XmltodictMissing) else ValueError(conn.catalogue.message)
    }

    /** The identifiers the device lists (empty when it cannot be read). */
    function Known(): seq<string> {
      if conn.catalogue.Answer? then Identifiers(conn.catalogue.value) else []
    }

    /** The `<get-schema>` reply for a listed identifier: the request names
        the version of the identifier's first catalogue entry. */
    function SchemaReply(id: string): Reply<string>
      requires id in Known()
    {
      conn.getSchema(id, VersionOf(conn.catalogue.value, id))
    }

    constructor (conn: Device, hasXmltodict: bool)
      ensures Valid()
      ensures this.conn == conn && this.hasXmltodict == hasXmltodict
      ensures schemaCache == [] && allSchemaList == None && identifierList == [] && requested == []
      ensures importsOf == ImportNames
    {
      this.conn := conn;
      importsOf := ImportNames;
      this.hasXmltodict := hasXmltodict;
      schemaCache := [];
      allSchemaList := None;
      identifierList := [];
      requested := [];
    }

    /** `get_schema_description`: reads the catalogue, appends its
        identifiers to `_all_schema_identifier_list` in catalogue order and
        returns that list. */
    method GetSchemaDescription() returns (r: Result<seq<string>>)
      requires Valid()
      modifies this
      ensures Valid()
      ensures schemaCache == old(schemaCache) && requested == old(requested)
      ensures DescriptionFails() ==>
        && r == Err(DescriptionError())
        && allSchemaList == old(allSchemaList) && identifierList == old(identifierList)
      ensures !DescriptionFails() ==>
        && allSchemaList == Some(conn.catalogue.value)
        && identifierList == old(identifierList) + Identifiers(conn.catalogue.value)
        && r == Ok(identifierList)
    {
      if !hasXmltodict {
        return Err(ValueError(XmltodictMissing));
      }
      match conn.catalogue
      case Refused(message) =>
        return Err(ValueError(message));
      case Answer(entries) =>
        allSchemaList := Some(entries);
        var i := 0;
        while i < |entries|
          invariant 0 <= i <= |entries|
          invariant identifierList == old(identifierList) + Identifiers(entries[..i])
          invariant allSchemaList == Some(entries)
          invariant schemaCache == old(schemaCache) && requested == old(requested)
        {
          identifierList := identifierList + [entries[i].identifier];
          i := i + 1;
          assert Identifiers(entries[..i]) == Identifiers(entries[..i - 1]) + [entries[i - 1].identifier];
        }
        assert entries[..i] == entries;
        assert Elems(old(identifierList)) <= Elems(Identifiers(entries));
        return Ok(identifierList);
    }

    // -------------------------------------------------------------------
    // One model: `get_one_schema` and `get_schema_and_dependants`

    /** What `get_one_schema` returns, with `result["fetched"]`,
        `result["failed_yang_models"]` and the requests after it, given
        their values before. */
    function OneSchema(schemaId: string, fetched: map<string, string>, failed: seq<string>,
                       requested: seq<string>, continueOnError: bool)
      : (r: (Result<(bool, Option<string>)>, map<string, string>, seq<string>, seq<string>))
      ensures r.0.Ok? && r.0.value.0 ==> r.0.value.1.Some?
    {
      if DescriptionFails() then
        (Err(DescriptionError()), fetched, failed, requested)
      else if schemaId in Known() then
        match SchemaReply(schemaId)
        case Refused(m) => (Err(ValueError(m)), fetched, failed, requested + [schemaId])
        case Answer(text) => (Ok((true, Some(text))), fetched[schemaId := text], failed, requested + [schemaId])
      else if !continueOnError then
        (Err(ValueError(FailToFetch(schemaId))), fetched, failed, requested)
      else
        (Ok((false, None)), fetched, failed + [schemaId], requested)
    }

    /** `get_one_schema`: fetches one model into `result.fetched`, or records
        or reports that the device does not list it. The request names the
        version of the model's first catalogue entry. */
    method GetOneSchema(schemaId: string, result: FetchResult, continueOnError: bool)
      returns (r: Result<(bool, Option<string>)>)
      requires Valid()
      modifies this, result
      ensures Valid()
      ensures (r, result.fetched, result.failed, requested)
              == OneSchema(schemaId, old(result.fetched), old(result.failed), old(requested), continueOnError)
      ensures schemaCache == old(schemaCache) + (if r.Ok? && r.value.0 then [map[]] else [])
      ensures !DescriptionFails() ==> allSchemaList == Some(conn.catalogue.value)
    {
      if allSchemaList.None? {
        var d := GetSchemaDescription();
        if d.Err? {
          return Err(d.error);
        }
      }
      var entries := allSchemaList.value;
      var found := false;
      var version := "";
      var i := 0;
      while i < |entries|
        invariant 0 <= i <= |entries|
        invariant forall j :: 0 <= j < i ==> entries[j].identifier != schemaId
      {
        if schemaId == entries[i].identifier {
          version := entries[i].version;
          found := true;
          break;
        }
        i := i + 1;
      }
      assert found ==> schemaId in Identifiers(entries) && version == VersionOf(entries, schemaId);
      assert !found ==> schemaId !in Identifiers(entries);

      if schemaId in identifierList {
        assert schemaId in Elems(Identifiers(entries));
        requested := requested + [schemaId];
        match conn.getSchema(schemaId, version)
        case Refused(message) =>
          return Err(ValueError(message));
        case Answer(dataModel) =>
          result.fetched := result.fetched[schemaId := dataModel];
          schemaCache := schemaCache + [map[]];
          return Ok((found, Some(dataModel)));
      } else {
        assert schemaId !in Elems(Identifiers(entries));
        if !continueOnError {
          return Err(ValueError(FailToFetch(schemaId)));
        } else {
          result.failed := result.failed + [schemaId];
          return Ok((found, None));
        }
      }
    }

    /** What `get_schema_and_dependants` returns, with the fetched and failed
        models and the requests after it. */
    function Dependants(schemaId: string, fetched: map<string, string>, failed: seq<string>,
                        requested: seq<string>, continueOnFailure: bool)
      : (Result<seq<string>>, map<string, string>, seq<string>, seq<string>)
    {
      var (one, fetched', failed', requested') := OneSchema(schemaId, fetched, failed, requested, continueOnFailure);
      if one.Err? then (Err(one.error), fetched', failed', requested')
      else if one.value.0 then
        var text := one.value.1.value;
        (Ok(importsOf(text)), fetched'[schemaId := text], failed', requested')
      else (Ok([]), fetched', failed', requested')
    }

    /** `get_schema_and_dependants`: fetches one model and returns the names
        it imports, or `[]` when an unlisted model is tolerated. */
    method GetSchemaAndDependants(schemaId: string, result: FetchResult, continueOnFailure: bool)
      returns (r: Result<seq<string>>)
      requires Valid()
      modifies this, result
      ensures Valid()
      ensures (r, result.fetched, result.failed, requested)
              == Dependants(schemaId, old(result.fetched), old(result.failed), old(requested), continueOnFailure)
    {
      var one := GetOneSchema(schemaId, result, continueOnFailure);
      if one.Err? {
        return Err(one.error);
      }
      var (found, dataModel) := one.value;
      if found {
        result.fetched := result.fetched[schemaId := dataModel.value];
        return Ok(importsOf(dataModel.value));
      } else {
        return Ok([]);
      }
    }

    /** `get_schema_and_dependants` case by case: a catalogue that cannot be
        read raises; a listed model is requested once, and either the
        request fails or its text is stored and its imports returned; an
        unlisted model raises, or is recorded as failed when tolerated. */
    lemma DependantsCases(schemaId: string, fetched: map<string, string>, failed: seq<string>,
                          requested: seq<string>, continueOnFailure: bool)
      ensures var r := Dependants(schemaId, fetched, failed, requested, continueOnFailure);
        && (DescriptionFails() ==> r == (Err(DescriptionError()), fetched, failed, requested))
        && (!DescriptionFails() && schemaId in Known() ==>
              match SchemaReply(schemaId)
              case Refused(m) => r == (Err(ValueError(m)), fetched, failed, requested + [schemaId])
              case Answer(text) =>
                r == (Ok(importsOf(text)), fetched[schemaId := text], failed, requested + [schemaId]))
        && (!DescriptionFails() && schemaId !in Known() ==>
              r == if continueOnFailure then (Ok([]), fetched, failed + [schemaId], requested)
                   else (Err(ValueError(FailToFetch(schemaId))), fetched, failed, requested))
    {
      if !DescriptionFails() && schemaId in Known() && SchemaReply(schemaId).Answer? {
        var text := SchemaReply(schemaId).value;
        assert fetched[schemaId := text][schemaId := text] == fetched[schemaId := text];
      }
    }

    // -------------------------------------------------------------------
    // `run` as a function of values: its loop state and one turn of it

    /** The listed models not fetched yet: what bounds the work left to `run`. */
    function Unfetched(fetched: map<string, string>): set<string> {
      set id | id in Known() && id !in fetched
    }

    /** One turn of `run`'s loop on a non-empty queue: the error it raises,
        if any, and the state after it. */
    function Step(p: Progress, continueOnFailure: bool): (Option<Error>, Progress)
      requires p.queue != []
    {
      var id := p.queue[0];
      var rest := p.queue[1..];
      if id in p.fetched then
        (None, p.(queue := rest, counter := p.counter - 1))
      else
        var (deps, fetched, failed, requested) := Dependants(id, p.fetched, p.failed, p.requested, continueOnFailure);
        if deps.Err? then
          (Some(deps.error), Progress(rest, fetched, failed, requested, p.changed, p.counter, p.enqueued))
        else
          var added := Unseen(deps.value, fetched);
          (None, Progress(rest + added, fetched, failed, requested,
                          p.changed || added != [], p.counter + |added|, p.enqueued + added))
    }

    /** A turn that goes on fetches a listed model, or leaves the fetched
        models as they are and shortens the queue. */
    lemma StepProgresses(p: Progress, continueOnFailure: bool)
      requires p.queue != []
      ensures var (e, q) := Step(p, continueOnFailure);
        e.None? ==>
          || Unfetched(q.fetched) < Unfetched(p.fetched)
          || (q.fetched == p.fetched && |q.queue| < |p.queue|)
    {
      DependantsCases(p.queue[0], p.fetched, p.failed, p.requested, continueOnFailure);
      var id := p.queue[0];
      var (e, q) := Step(p, continueOnFailure);
      if e.None? && id !in p.fetched {
        var (deps, fetched, failed, requested) := Dependants(id, p.fetched, p.failed, p.requested, continueOnFailure);
        if fetched == p.fetched {
          assert deps.value == [];
        } else {
          assert id in Known() && fetched == p.fetched[id := fetched[id]];
          assert Unfetched(fetched) == Unfetched(p.fetched) - {id};
        }
      }
    }

    /** The outcome of `run`'s loop from state `p`, and the final state. */
    function Finish(p: Progress, continueOnFailure: bool): (r: (Result<(bool, int)>, Progress))
      ensures r.0.Ok? ==> r.1.queue == [] && r.0.value == (r.1.changed, r.1.counter)
      decreases Unfetched(p.fetched), |p.queue|
    {
      if p.queue == [] then (Ok((p.changed, p.counter)), p)
      else
        var (e, q) := Step(p, continueOnFailure);
        StepProgresses(p, continueOnFailure);
        if e.Some? then (Err(e.value), q) else Finish(q, continueOnFailure)
    }

    /** One turn of `run`'s loop: dequeues a model and, unless it is fetched
        already, fetches it and queues its imports that are not fetched;
        `e` is the error raised, if any. */
    method Turn(queue: seq<string>, result: FetchResult, changed: bool, counter: int,
                ghost enqueued: seq<string>, continueOnFailure: bool)
      returns (e: Option<Error>, queue': seq<string>, changed': bool, counter': int,
               ghost enqueued': seq<string>)
      requires Valid() && queue != []
      modifies this, result
      ensures Valid()
      ensures Step(Progress(queue, old(result.fetched), old(result.failed), old(requested), changed, counter, enqueued),
                   continueOnFailure)
              == (e, Progress(queue', result.fetched, result.failed, requested, changed', counter', enqueued'))
    {
      ghost var p := Progress(queue, result.fetched, result.failed, requested, changed, counter, enqueued);
      var id := queue[0];
      queue' := queue[1..];
      if id in result.fetched {
        TurnSkips(p, continueOnFailure);
        return None, queue', changed, counter - 1, enqueued;
      }
      var deps := GetSchemaAndDependants(id, result, continueOnFailure);
      if deps.Err? {
        TurnRaises(p, continueOnFailure, deps, result.fetched, result.failed, requested);
        return Some(deps.error), queue', changed, counter, enqueued;
      }
      ghost var added: seq<string>;
      queue', changed', counter', added := EnqueueImports(deps.value, result.fetched, queue', changed, counter);
      enqueued' := enqueued + added;
      TurnQueues(p, continueOnFailure, deps, result.fetched, result.failed, requested, added);
      e := None;
      assert Progress(queue', result.fetched, result.failed, requested, changed', counter', enqueued')
             == Progress(p.queue[1..] + added, result.fetched, result.failed, requested, p.changed || added != [],
                         p.counter + |added|, p.enqueued + added);
    }

    /** `run`: breadth-first fetch of `schemaId` and every model it imports,
        directly or not; returns `(changed, counter)`. Its outcome, and the
        state of `result` and of the requests it leaves, are those of
        `Finish` from a queue holding just the root. */
    method Run(schemaId: string, result: FetchResult, continueOnFailure: bool)
      returns (r: Result<(bool, int)>)
      requires Valid()
      modifies this, result
      ensures Valid()
      ensures var (res, p) := Finish(Start(schemaId, old(result.fetched), old(result.failed), old(requested)),
                                    continueOnFailure);
        r == res && result.fetched == p.fetched && result.failed == p.failed && requested == p.requested
    {
      ghost var p0 := Start(schemaId, result.fetched, result.failed, requested);
      var changed := false;
      var counter := 1;
      var queue := [schemaId];
      ghost var enqueued: seq<string> := [];

      while |queue| > 0
        invariant Valid()
        invariant Finish(Progress(queue, result.fetched, result.failed, requested, changed, counter, enqueued),
                         continueOnFailure) == Finish(p0, continueOnFailure)
        decreases Unfetched(result.fetched), |queue|
      {
        ghost var p := Progress(queue, result.fetched, result.failed, requested, changed, counter, enqueued);
        StepProgresses(p, continueOnFailure);
        var e;
        e, queue, changed, counter, enqueued := Turn(queue, result, changed, counter, enqueued, continueOnFailure);
        if e.Some? {
          return Err(e.value);
        }
      }
      return Ok((changed, counter));
    }

    /** A turn on a model fetched already only drops it from the queue. */
    lemma TurnSkips(p: Progress, continueOnFailure: bool)
      requires p.queue != [] && p.queue[0] in p.fetched
      ensures Step(p, continueOnFailure) == (None, p.(queue := p.queue[1..], counter := p.counter - 1))
    {
    }

    /** A turn that gets the imports of a model queues those not fetched. */
    lemma TurnQueues(p: Progress, continueOnFailure: bool, deps: Result<seq<string>>,
                     fetched: map<string, string>, failed: seq<string>, requested: seq<string>,
                     added: seq<string>)
      requires p.queue != [] && p.queue[0] !in p.fetched
      requires Dependants(p.queue[0], p.fetched, p.failed, p.requested, continueOnFailure)
               == (deps, fetched, failed, requested)
      requires deps.Ok? && added == Unseen(deps.value, fetched)
      ensures Step(p, continueOnFailure) ==
        (None, Progress(p.queue[1..] + added, fetched, failed, requested, p.changed || added != [],
                        p.counter + |added|, p.enqueued + added))
    {
    }

    /** A turn whose `get_schema_and_dependants` raises ends with that error. */
    lemma TurnRaises(p: Progress, continueOnFailure: bool, deps: Result<seq<string>>,
                     fetched: map<string, string>, failed: seq<string>, requested: seq<string>)
      requires p.queue != [] && p.queue[0] !in p.fetched
      requires Dependants(p.queue[0], p.fetched, p.failed, p.requested, continueOnFailure)
               == (deps, fetched, failed, requested)
      requires deps.Err?
      ensures Step(p, continueOnFailure) ==
        (Some(deps.error), Progress(p.queue[1..], fetched, failed, requested, p.changed, p.counter, p.enqueued))
    {
    }

    // -------------------------------------------------------------------
    // What `run` promises, proved about `Finish`

    /** How a later state of the loop extends an earlier one: requests and
        failures are only appended (failures only when tolerated), a model
        fetched keeps its text, and a newly fetched model holds the text the
        device returned for it. */
    ghost predicate Extends(p: Progress, q: Progress, continueOnFailure: bool) {
      && p.requested <= q.requested
      && p.failed <= q.failed
      && (!continueOnFailure ==> q.failed == p.failed)
      && p.enqueued <= q.enqueued
      && (forall k :: k in p.fetched ==> k in q.fetched && q.fetched[k] == p.fetched[k])
      && (forall k :: k in q.fetched && k !in p.fetched ==>
            k in Known() && SchemaReply(k) == Answer(q.fetched[k]))
    }

    lemma StepExtends(p: Progress, continueOnFailure: bool)
      requires p.queue != []
      ensures Extends(p, Step(p, continueOnFailure).1, continueOnFailure)
    {
      DependantsCases(p.queue[0], p.fetched, p.failed, p.requested, continueOnFailure);
    }

    lemma {:induction false} FinishExtends(p: Progress, continueOnFailure: bool)
      ensures Extends(p, Finish(p, continueOnFailure).1, continueOnFailure)
      decreases Unfetched(p.fetched), |p.queue|
    {
      if p.queue != [] {
        var (e, q) := Step(p, continueOnFailure);
        StepProgresses(p, continueOnFailure);
        StepExtends(p, continueOnFailure);
        if e.None? {
          FinishExtends(q, continueOnFailure);
        }
      }
    }


    /** Each turn adds to the counter what it queues and takes one off for
        a model it skips. */
    lemma StepCounts(p: Progress, continueOnFailure: bool)
      requires p.queue != []
      ensures var (e, q) := Step(p, continueOnFailure);
        e.None? ==> q.counter + |p.requested| + |p.failed| + |p.queue|
                    == p.counter + |q.requested| + |q.failed| + |q.queue|
    {
      DependantsCases(p.queue[0], p.fetched, p.failed, p.requested, continueOnFailure);
    }

    /** Once the queue is drained, the counter has grown by the number of
        models the loop requested or recorded as failed, less what was
        still queued at the start. */
    lemma {:induction false} FinishCounts(p: Progress, continueOnFailure: bool)
      ensures var (res, q) := Finish(p, continueOnFailure);
        res.Ok? ==> q.counter + |p.requested| + |p.failed| + |p.queue| == p.counter + |q.requested| + |q.failed|
      decreases Unfetched(p.fetched), |p.queue|
    {
      if p.queue != [] {
        var (e, q) := Step(p, continueOnFailure);
        StepProgresses(p, continueOnFailure);
        StepCounts(p, continueOnFailure);
        if e.None? {
          FinishCounts(q, continueOnFailure);
        }
      }
    }

    /** A turn requests at most the model it dequeued, and only when that
        model is not fetched; when the turn goes on, the model is fetched. */
    lemma StepRequestsOnce(p: Progress, continueOnFailure: bool)
      requires p.queue != []
      ensures var (e, q) := Step(p, continueOnFailure);
        || q.requested == p.requested
        || (&& q.requested == p.requested + [p.queue[0]] && p.queue[0] !in p.fetched
            && (e.None? ==> p.queue[0] in q.fetched))
    {
      DependantsCases(p.queue[0], p.fetched, p.failed, p.requested, continueOnFailure);
    }

    /** The requests sent from state `p` on are for distinct models, none of
        them fetched in `p`; when the loop completes, all are fetched. */
    lemma {:induction false} FinishRequestsOnce(p: Progress, continueOnFailure: bool)
      ensures var (res, q) := Finish(p, continueOnFailure);
        && (forall i :: |p.requested| <= i < |q.requested| ==> q.requested[i] !in p.fetched)
        && (forall i, j :: |p.requested| <= i < j < |q.requested| ==> q.requested[i] != q.requested[j])
        && (res.Ok? ==> forall i :: |p.requested| <= i < |q.requested| ==> q.requested[i] in q.fetched)
      decreases Unfetched(p.fetched), |p.queue|
    {
      if p.queue != [] {
        var (e, q) := Step(p, continueOnFailure);
        StepProgresses(p, continueOnFailure);
        StepRequestsOnce(p, continueOnFailure);
        StepExtends(p, continueOnFailure);
        if e.None? {
          var r := Finish(q, continueOnFailure).1;
          FinishRequestsOnce(q, continueOnFailure);
          FinishExtends(q, continueOnFailure);
          if q.requested != p.requested {
            var n := |p.requested|;
            assert r.requested[n] == p.queue[0] && p.queue[0] in q.fetched;
            assert forall i :: n < i < |r.requested| ==> r.requested[i] !in q.fetched;
          }
        }
      }
    }

    /** A turn sets `changed` exactly when it queues something. */
    lemma StepMarksChange(p: Progress, continueOnFailure: bool)
      requires p.queue != []
      ensures var (e, q) := Step(p, continueOnFailure);
        q.changed <==> p.changed || |q.enqueued| > |p.enqueued|
    {
      DependantsCases(p.queue[0], p.fetched, p.failed, p.requested, continueOnFailure);
    }

    /** From state `p` on, `changed` is set exactly when some import is queued. */
    lemma {:induction false} FinishMarksChange(p: Progress, continueOnFailure: bool)
      ensures var q := Finish(p, continueOnFailure).1;
        q.changed <==> p.changed || |q.enqueued| > |p.enqueued|
      decreases Unfetched(p.fetched), |p.queue|
    {
      if p.queue != [] {
        var (e, q) := Step(p, continueOnFailure);
        StepProgresses(p, continueOnFailure);
        StepMarksChange(p, continueOnFailure);
        StepExtends(p, continueOnFailure);
        if e.None? {
          FinishMarksChange(q, continueOnFailure);
          FinishExtends(q, continueOnFailure);
        }
      }
    }

    /** `x` is still to be handled, or has been: fetched, queued or failed. */
    ghost predicate Covered(p: Progress, x: string) {
      x in p.fetched || x in p.queue || x in p.failed
    }

    /** Every import of a model fetched since `fetched0` is covered. */
    ghost predicate ImportsCovered(fetched0: map<string, string>, p: Progress) {
      forall k :: k in p.fetched && k !in fetched0 ==>
        forall x :: x in importsOf(p.fetched[k]) ==> Covered(p, x)
    }

    /** A turn that goes on keeps every name covered, and covers the
        imports of the model it fetches. */
    lemma StepCovers(fetched0: map<string, string>, p: Progress, continueOnFailure: bool)
      requires p.queue != [] && ImportsCovered(fetched0, p)
      ensures var (e, q) := Step(p, continueOnFailure);
        e.None? ==> (forall x :: Covered(p, x) ==> Covered(q, x)) && ImportsCovered(fetched0, q)
    {
      DependantsCases(p.queue[0], p.fetched, p.failed, p.requested, continueOnFailure);
      var (e, q) := Step(p, continueOnFailure);
      if e.None? {
        var id := p.queue[0];
        forall x | Covered(p, x) ensures Covered(q, x) {
          if x in p.queue && x !in p.fetched && x !in p.failed && x !in q.queue[..] {
            assert x == id;
          }
        }
        if id !in p.fetched && id in Known() {
          var text := SchemaReply(id).value;
          assert q.fetched == p.fetched[id := text];
          assert q.queue == p.queue[1..] + Unseen(importsOf(text), q.fetched);
          forall x | x in importsOf(text) ensures Covered(q, x) {
            if x !in q.fetched {
              assert x in q.queue[|p.queue| - 1..];
            }
          }
        }
      }
    }

    /** When the loop completes from `p`, every name covered in `p` is
        fetched or failed, and so is every import of a model fetched since
        `fetched0`. */
    lemma {:induction false} FinishCloses(fetched0: map<string, string>, p: Progress, continueOnFailure: bool)
      requires ImportsCovered(fetched0, p)
      ensures var (res, q) := Finish(p, continueOnFailure);
        res.Ok? ==>
          && (forall x :: Covered(p, x) ==> x in q.fetched || x in q.failed)
          && (forall k :: k in q.fetched && k !in fetched0 ==>
                forall x :: x in importsOf(q.fetched[k]) ==> x in q.fetched || x in q.failed)
      decreases Unfetched(p.fetched), |p.queue|
    {
      if p.queue != [] {
        var (e, q) := Step(p, continueOnFailure);
        StepProgresses(p, continueOnFailure);
        StepCovers(fetched0, p, continueOnFailure);
        if e.None? {
          FinishCloses(fetched0, q, continueOnFailure);
        }
      }
    }

    /** `x` is imported by some model fetched in `q` but not in `fetched0`. */
    ghost predicate ImportedSince(fetched0: map<string, string>, q: Progress, x: string) {
      exists k :: k in q.fetched && k !in fetched0 && x in importsOf(q.fetched[k])
    }

    /** A turn queues only imports of the model it fetched that are not fetched. */
    lemma StepQueuesImports(p: Progress, continueOnFailure: bool)
      requires p.queue != []
      ensures var (e, q) := Step(p, continueOnFailure);
        forall i :: |p.enqueued| <= i < |q.enqueued| ==>
          && q.enqueued[i] !in p.fetched && p.queue[0] in q.fetched && p.queue[0] !in p.fetched
          && q.enqueued[i] in importsOf(q.fetched[p.queue[0]])
    {
      DependantsCases(p.queue[0], p.fetched, p.failed, p.requested, continueOnFailure);
      var (e, q) := Step(p, continueOnFailure);
      var id := p.queue[0];
      if id !in p.fetched && !DescriptionFails() && id in Known() && SchemaReply(id).Answer? {
        var text := SchemaReply(id).value;
        var added := Unseen(importsOf(text), p.fetched[id := text]);
        assert p.fetched[id := text][id := text] == p.fetched[id := text];
        assert q.enqueued == p.enqueued + added && q.fetched == p.fetched[id := text];
        forall i | |p.enqueued| <= i < |q.enqueued|
          ensures q.enqueued[i] !in p.fetched && q.enqueued[i] in importsOf(q.fetched[id])
        {
          assert q.enqueued[i] == added[i - |p.enqueued|] && added[i - |p.enqueued|] in added;
        }
      } else {
        assert q.enqueued == p.enqueued;
      }
    }

    /** Every import queued from state `p` on was not fetched in `p` and is
        imported by a model fetched since. */
    lemma {:induction false} FinishQueuesImports(p: Progress, continueOnFailure: bool)
      ensures var q := Finish(p, continueOnFailure).1;
        forall i :: |p.enqueued| <= i < |q.enqueued| ==>
          q.enqueued[i] !in p.fetched && ImportedSince(p.fetched, q, q.enqueued[i])
      decreases Unfetched(p.fetched), |p.queue|
    {
      if p.queue != [] {
        var (e, q) := Step(p, continueOnFailure);
        StepProgresses(p, continueOnFailure);
        StepQueuesImports(p, continueOnFailure);
        StepExtends(p, continueOnFailure);
        if e.None? {
          var r := Finish(q, continueOnFailure).1;
          FinishQueuesImports(q, continueOnFailure);
          assert var q' := Finish(q, continueOnFailure).1;
            forall i :: |q.enqueued| <= i < |q'.enqueued| ==>
              q'.enqueued[i] !in q.fetched && ImportedSince(q.fetched, q', q'.enqueued[i]);
          assert forall j :: |q.enqueued| <= j < |r.enqueued| ==> ImportedSince(q.fetched, r, r.enqueued[j]);
          FinishExtends(q, continueOnFailure);
          forall i | |p.enqueued| <= i < |r.enqueued|
            ensures r.enqueued[i] !in p.fetched && ImportedSince(p.fetched, r, r.enqueued[i])
          {
            var x := r.enqueued[i];
            if i < |q.enqueued| {
              var id := p.queue[0];
              assert x == q.enqueued[i] && r.fetched[id] == q.fetched[id];
              assert id in r.fetched && id !in p.fetched && x in importsOf(r.fetched[id]);
            } else {
              assert ImportedSince(q.fetched, r, x);
              var k :| k in r.fetched && k !in q.fetched && x in importsOf(r.fetched[k]);
              assert k !in p.fetched;
            }
          }
        }
      }
    }

    // -------------------------------------------------------------------
    // The same promises, for a whole run from the root

    /** A root fetched already is skipped: nothing is requested, nothing
        changes, and the counter ends at 0. */
    lemma RunSkipsFetchedRoot(schemaId: string, fetched: map<string, string>, failed: seq<string>,
                              requested: seq<string>, continueOnFailure: bool)
      requires schemaId in fetched
      ensures Finish(Start(schemaId, fetched, failed, requested), continueOnFailure)
              == (Ok((false, 0)), Progress([], fetched, failed, requested, false, 0, []))
    {
      var p := Start(schemaId, fetched, failed, requested);
      assert p.queue[1..] == [];
      assert Step(p, continueOnFailure) == (None, Progress([], fetched, failed, requested, false, 0, []));
    }

    /** A completed run returns as its counter the number of models passed
        to `get_schema_and_dependants`: those requested plus those recorded
        as failed. */
    lemma RunCountsModels(schemaId: string, fetched: map<string, string>, failed: seq<string>,
                          requested: seq<string>, continueOnFailure: bool)
      ensures var (res, q) := Finish(Start(schemaId, fetched, failed, requested), continueOnFailure);
        res.Ok? ==> res.value.1 == (|q.requested| - |requested|) + (|q.failed| - |failed|)
    {
      FinishCounts(Start(schemaId, fetched, failed, requested), continueOnFailure);
    }

    /** A run requests no model twice and none that was fetched before it;
        when it completes, every model it requested is fetched. */
    lemma RunNeverRefetches(schemaId: string, fetched: map<string, string>, failed: seq<string>,
                            requested: seq<string>, continueOnFailure: bool)
      ensures var (res, q) := Finish(Start(schemaId, fetched, failed, requested), continueOnFailure);
        && requested <= q.requested
        && (forall i :: |requested| <= i < |q.requested| ==> q.requested[i] !in fetched)
        && (forall i, j :: |requested| <= i < j < |q.requested| ==> q.requested[i] != q.requested[j])
        && (res.Ok? ==> forall i :: |requested| <= i < |q.requested| ==> q.requested[i] in q.fetched)
    {
      var p := Start(schemaId, fetched, failed, requested);
      FinishRequestsOnce(p, continueOnFailure);
      FinishExtends(p, continueOnFailure);
    }

    /** A run keeps the text of every model fetched before it, writes only
        texts the device returned for listed models, and appends to the
        failed list only when failures are tolerated. */
    lemma RunKeepsFetched(schemaId: string, fetched: map<string, string>, failed: seq<string>,
                          requested: seq<string>, continueOnFailure: bool)
      ensures var q := Finish(Start(schemaId, fetched, failed, requested), continueOnFailure).1;
        && (forall k :: k in fetched ==> k in q.fetched && q.fetched[k] == fetched[k])
        && (forall k :: k in q.fetched && k !in fetched ==>
              k in Known() && SchemaReply(k) == Answer(q.fetched[k]))
        && failed <= q.failed
        && (!continueOnFailure ==> q.failed == failed)
    {
      FinishExtends(Start(schemaId, fetched, failed, requested), continueOnFailure);
    }

    /** A run reports a change exactly when it queued some import, and each
        import it queued was not fetched before the run and is imported by
        a model the run fetched. */
    lemma RunReportsChange(schemaId: string, fetched: map<string, string>, failed: seq<string>,
                           requested: seq<string>, continueOnFailure: bool)
      ensures var (res, q) := Finish(Start(schemaId, fetched, failed, requested), continueOnFailure);
        && (res.Ok? ==> (res.value.0 <==> q.enqueued != []))
        && (forall x :: x in q.enqueued ==>
              x !in fetched && ImportedSince(fetched, q, x))
    {
      var p := Start(schemaId, fetched, failed, requested);
      FinishMarksChange(p, continueOnFailure);
      FinishQueuesImports(p, continueOnFailure);
    }

    /** A completed run closes the root over imports: the root, and every
        import of every model the run fetched, is fetched or failed. */
    lemma RunClosesImports(schemaId: string, fetched: map<string, string>, failed: seq<string>,
                           requested: seq<string>, continueOnFailure: bool)
      ensures var (res, q) := Finish(Start(schemaId, fetched, failed, requested), continueOnFailure);
        res.Ok? ==>
          && (schemaId in q.fetched || schemaId in q.failed)
          && (forall k :: k in q.fetched && k !in fetched ==>
                forall x :: x in importsOf(q.fetched[k]) ==> x in q.fetched || x in q.failed)
    {
      var p := Start(schemaId, fetched, failed, requested);
      assert Covered(p, schemaId);
      FinishCloses(fetched, p, continueOnFailure);
    }
  }

  /** The names that are not keys of `fetched`, in order. */
  function Unseen(names: seq<string>, fetched: map<string, string>): (r: seq<string>)
    ensures forall x :: x in r <==> x in names && x !in fetched
  {
    if names == [] then []
    else
      var last := names[|names| - 1];
      Unseen(names[..|names| - 1], fetched) + (if last in fetched then [] else [last])
  }

  /** The inner loop of `run`: queues each import that is not fetched yet,
      counting it and noting the change. */
  method EnqueueImports(names: seq<string>, fetched: map<string, string>, queue: seq<string>,
                        changed: bool, counter: int)
    returns (queue': seq<string>, changed': bool, counter': int, ghost added: seq<string>)
    ensures added == Unseen(names, fetched)
    ensures queue' == queue + added
    ensures counter' == counter + |added|
    ensures changed' <==> changed || added != []
  {
    queue', changed', counter' := queue, changed, counter;
    added := [];
    var j := 0;
    while j < |names|
      invariant 0 <= j <= |names|
      invariant added == Unseen(names[..j], fetched)
      invariant queue' == queue + added
      invariant counter' == counter + |added|
      invariant changed' <==> changed || added != []
    {
      var name := names[j];
      assert names[..j + 1][..j] == names[..j] && names[..j + 1][j] == name;
      assert Unseen(names[..j + 1], fetched) == added + (if name in fetched then [] else [name]);
      if name !in fetched {
        assert (queue + added) + [name] == queue + (added + [name]);
        queue' := queue' + [name];
        changed' := true;
        counter' := counter' + 1;
        added := added + [name];
      }
      j := j + 1;
    }
    assert names[..j] == names;
  }
}

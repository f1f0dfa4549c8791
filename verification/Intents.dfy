/** The application's desired-state database and the edits that API calls make to it
    (app/api/provisioning.py:44-164, app/api/voice_features.py:47-318, app/schemas/voice.py). */
module Intents {
  import opened Names
  import opened Sets
  import opened Indexed
  import opened Tables
  import opened Steps
  import opened Client
  import opened Models
  import opened Rows
  import opened Voice
  import IvrText

  /** A voice_domains row; no status means that it was never reconciled. */
  datatype DomainRow = DomainRow(customer: string, name: string, active: bool, recording: bool,
      status: Option<SyncStatus>)

  datatype Store = Store(
    domains: map<Uuid, DomainRow>,
    exts: map<Uuid, Row<ExtModel>>,
    conferences: map<Uuid, Row<()>>,
    rings: map<Uuid, Row<RingModel>>,
    ivrs: map<Uuid, Row<IvrModel>>,
    queues: map<Uuid, Row<QueueModel>>)

  // ------------------------------------------------------------------ payloads

  datatype ExtIntent = ExtIntent(number: string, display: string)

  /** One API write. */
  datatype Event =
    | PutDomain(name: string, recording: bool, exts: seq<ExtIntent>)
    | PutFeatures(conferences: seq<(string, ())>, rings: seq<(string, RingModel)>, ivrs: seq<(string, IvrModel)>,
        queues: seq<(string, QueueModel)>)
    | PostConference(number: string)
    | PostRing(number: string, ring: RingModel)
    | PostIvr(number: string, ivr: IvrModel)
    | PostQueue(number: string, queue: QueueModel)
    | DeleteFeature(kind: Kind, number: string)
    | SetActive(active: bool)

  predicate ApiNumber(n: string) {
    1 <= |n| <= 32 && DialChars(n)
  }

  predicate NoDuplicates(s: seq<string>) {
    forall i, j :: 0 <= i < j < |s| ==> s[i] != s[j]
  }

  predicate ValidRing(r: RingModel) {
    r.members != [] && ValidTokens(r.members) && NoDuplicates(r.members) && r.strategy in {"simultaneous", "sequence"}
        && 1 <= r.timeout <= 120
  }

  predicate ValidIvr(i: IvrModel) {
    IvrText.ValidOptions(i.options)
  }

  const QUEUE_STRATEGIES := {
    "ring-all", "longest-idle-agent", "round-robin", "top-down", "agent-with-least-talk-time",
    "agent-with-fewest-calls", "sequentially-by-agent-order", "random"}

  predicate ValidQueue(q: QueueModel) {
    q.agents != [] && ValidTokens(q.agents) && NoDuplicates(q.agents) && q.strategy in QUEUE_STRATEGIES
  }

  predicate ValidEntries<F>(intents: seq<(string, F)>, ok: F -> bool) {
    forall i :: 0 <= i < |intents| ==> ApiNumber(intents[i].0) && ok(intents[i].1)
  }

  predicate ValidExts(exts: seq<ExtIntent>) {
    && (forall i :: 0 <= i < |exts| ==> ApiNumber(exts[i].number))
    && (forall i, j :: 0 <= i < j < |exts| ==> exts[i].number != exts[j].number)
  }

  /** What the request validators accept; anything else is answered with 422 before the handler runs. */
  predicate ValidEvent(e: Event) {
    match e
    case PutDomain(name, _, exts) => ValidDomain(name) && ValidExts(exts)
    case PutFeatures(cs, rs, vs, qs) =>
      ValidEntries(cs, (f: ()) => true) && ValidEntries(rs, ValidRing) && ValidEntries(vs, ValidIvr)
          && ValidEntries(qs, ValidQueue)
    case PostConference(n) => ApiNumber(n)
    case PostRing(n, r) => ApiNumber(n) && ValidRing(r)
    case PostIvr(n, i) => ApiNumber(n) && ValidIvr(i)
    case PostQueue(n, q) => ApiNumber(n) && ValidQueue(q)
    case DeleteFeature(_, _) => true
    case SetActive(_) => true
  }

  // --------------------------------------------------------- intended outcome

  /** One listed extension as it is to be stored. */
  function Kept(before: map<string, ExtModel>, e: ExtIntent): ExtModel {
    ExtModel(e.display, if e.number in before then before[e.number].voicemail else true)
  }

  /** A listed extension gets the listed name; its voicemail setting stays, and is on when new. */
  function Merged(before: map<string, ExtModel>, exts: seq<ExtIntent>): map<string, ExtModel> {
    if exts == [] then map[]
    else
      var e := exts[|exts| - 1];
      Merged(before, exts[..|exts| - 1])[e.number := Kept(before, e)]
  }

  /** What a write means for the desired state. */
  function Intended(m: Model, e: Event): Model {
    match e
    case PutDomain(_, recording, exts) => m.(recording := recording, exts := Merged(m.exts, exts))
    case PutFeatures(cs, rs, vs, qs) =>
      m.(conferences := LastOf(cs).Keys, rings := LastOf(rs), ivrs := LastOf(vs), queues := LastOf(qs))
    case PostConference(n) => m.(conferences := m.conferences + {n})
    case PostRing(n, r) => m.(rings := m.rings[n := r])
    case PostIvr(n, i) => m.(ivrs := m.ivrs[n := i])
    case PostQueue(n, q) => m.(queues := m.queues[n := q])
    case DeleteFeature(k, n) =>
      (match k
       case Conference => m.(conferences := m.conferences - {n})
       case RingGroup => m.(rings := m.rings - {n})
       case Ivr => m.(ivrs := m.ivrs - {n})
       case CallQueue => m.(queues := m.queues - {n}))
    case SetActive(active) => m.(active := active)
  }

  /** A new customer's desired state. */
  function NewModel(name: string): Model {
    Model(name, true, false, map[], {}, map[], map[], map[])
  }

  lemma DeleteKeepsFlags(m: Model, e: Event)
    requires e.DeleteFeature?
    ensures Intended(m, e).dom == m.dom && Intended(m, e).recording == m.recording
    ensures Intended(m, e).active == m.active
  {
    hide LastOf, Merged;
    match e.kind {
      case Conference =>
      case RingGroup =>
      case Ivr =>
      case CallQueue =>
    }
  }

  lemma FlagsAfter(m: Model, e: Event)
    ensures Intended(m, e).dom == m.dom
    ensures Intended(m, e).recording == if e.PutDomain? then e.recording else m.recording
    ensures Intended(m, e).active == if e.SetActive? then e.active else m.active
  {
    if e.DeleteFeature? {
      DeleteKeepsFlags(m, e);
    } else {
      hide LastOf, Merged;
    }
  }

  lemma ApiNumberValid(n: string)
    requires ApiNumber(n)
    ensures ValidToken(n)
  {}

  lemma LastOfValid<F>(intents: seq<(string, F)>, ok: F -> bool, n: string)
    requires ValidEntries(intents, ok) && n in LastOf(intents)
    ensures ValidToken(n) && ok(LastOf(intents)[n])
  {
    LastEntryWins(intents, n);
  }

  lemma {:induction false} MergedValid(before: map<string, ExtModel>, exts: seq<ExtIntent>, n: string)
    requires ValidExts(exts) && n in Merged(before, exts)
    ensures ValidToken(n)
  {
    var i := |exts| - 1;
    if n != exts[i].number {
      MergedValid(before, exts[..i], n);
    }
  }

  lemma PutDomainValid(m: Model, e: Event)
    requires ValidModel(m) && e.PutDomain? && ValidEvent(e)
    ensures ValidModel(Intended(m, e))
  {
    hide ValidDomain, ValidToken, ValidTokens, IvrText.ValidOptions, ValidExts;
    forall n | n in Merged(m.exts, e.exts) ensures ValidToken(n) {
      MergedValid(m.exts, e.exts, n);
    }
    hide Merged;
  }

  lemma PutFeaturesValid(m: Model, e: Event)
    requires ValidModel(m) && e.PutFeatures? && ValidEvent(e)
    ensures ValidModel(Intended(m, e))
  {
    hide ValidDomain, ValidToken, ValidTokens, IvrText.ValidOptions, ValidEntries, NoDuplicates, LastOf;
    forall n | n in LastOf(e.conferences) ensures ValidToken(n) {
      LastOfValid(e.conferences, (f: ()) => true, n);
    }
    forall n | n in LastOf(e.rings) ensures ValidToken(n) && ValidRing(LastOf(e.rings)[n]) {
      LastOfValid(e.rings, ValidRing, n);
    }
    forall n | n in LastOf(e.ivrs) ensures ValidToken(n) && ValidIvr(LastOf(e.ivrs)[n]) {
      LastOfValid(e.ivrs, ValidIvr, n);
    }
    forall n | n in LastOf(e.queues) ensures ValidToken(n) && ValidQueue(LastOf(e.queues)[n]) {
      LastOfValid(e.queues, ValidQueue, n);
    }
  }

  lemma RingsEdit(rings: map<string, RingModel>, n: string, r: RingModel)
    requires RingsValid(rings)
    ensures RingsValid(rings - {n}) && (ApiNumber(n) && ValidRing(r) ==> RingsValid(rings[n := r]))
  {
    hide ValidTokens, NoDuplicates;
  }

  lemma IvrsEdit(ivrs: map<string, IvrModel>, n: string, i: IvrModel)
    requires IvrsValid(ivrs)
    ensures IvrsValid(ivrs - {n}) && (ApiNumber(n) && ValidIvr(i) ==> IvrsValid(ivrs[n := i]))
  {
    hide IvrText.ValidOptions;
  }

  lemma QueuesEdit(queues: map<string, QueueModel>, n: string, q: QueueModel)
    requires QueuesValid(queues)
    ensures QueuesValid(queues - {n}) && (ApiNumber(n) && ValidQueue(q) ==> QueuesValid(queues[n := q]))
  {
    hide ValidTokens, NoDuplicates;
  }

  lemma DeleteValid(m: Model, k: Kind, n: string)
    requires ValidModel(m)
    ensures ValidModel(Intended(m, DeleteFeature(k, n)))
  {
    hide ValidDomain, ValidToken, RingsValid, IvrsValid, QueuesValid;
    match k {
      case Conference =>
      case RingGroup => RingsEdit(m.rings, n, RingModel([], "", 0));
      case Ivr => IvrsEdit(m.ivrs, n, IvrModel(map[], ""));
      case CallQueue => QueuesEdit(m.queues, n, QueueModel([], "", ""));
    }
  }

  lemma SingleEditValid(m: Model, e: Event)
    requires ValidModel(m) && !e.PutDomain? && !e.PutFeatures? && ValidEvent(e)
    ensures ValidModel(Intended(m, e))
  {
    hide ValidDomain, ValidToken, ApiNumber, RingsValid, IvrsValid, QueuesValid, ValidRing, ValidIvr, ValidQueue;
    match e {
      case PostConference(n) => ApiNumberValid(n);
      case PostRing(n, r) => RingsEdit(m.rings, n, r);
      case PostIvr(n, i) => IvrsEdit(m.ivrs, n, i);
      case PostQueue(n, q) => QueuesEdit(m.queues, n, q);
      case DeleteFeature(k, n) => DeleteValid(m, k, n);
      case SetActive(active) =>
    }
  }

  /** Validated writes keep the desired state valid, so reconcile never has to reject it. */
  lemma IntendedValid(m: Model, e: Event)
    requires ValidModel(m) && ValidEvent(e)
    ensures ValidModel(Intended(m, e))
  {
    hide ValidModel, ValidEvent, Intended;
    match e
    case PutDomain(_, _, _) => PutDomainValid(m, e);
    case PutFeatures(_, _, _, _) => PutFeaturesValid(m, e);
    case _ => SingleEditValid(m, e);
  }

  // ------------------------------------------------------------------ the store

  /** Customers and domain names are unique, and so is each number within a domain's table. */
  ghost predicate StoreOk(s: Store) {
    && RowsOk(s.exts) && RowsOk(s.conferences) && RowsOk(s.rings) && RowsOk(s.ivrs) && RowsOk(s.queues)
    && UniqueDomains(s.domains) && RowsHoused(s)
  }

  ghost predicate UniqueDomains(domains: map<Uuid, DomainRow>) {
    && (forall a, b :: a in domains && b in domains && domains[a].customer == domains[b].customer ==> a == b)
    && (forall a, b :: a in domains && b in domains && domains[a].name == domains[b].name ==> a == b)
  }

  /** Rows refer to existing domains. */
  ghost predicate RowsHoused(s: Store) {
    && (forall u :: u in s.exts ==> s.exts[u].domain in s.domains)
    && (forall u :: u in s.conferences ==> s.conferences[u].domain in s.domains)
    && (forall u :: u in s.rings ==> s.rings[u].domain in s.domains)
    && (forall u :: u in s.ivrs ==> s.ivrs[u].domain in s.domains)
    && (forall u :: u in s.queues ==> s.queues[u].domain in s.domains)
  }

  /** The desired state that the rows of one domain make up. */
  function ModelOf(s: Store, id: Uuid): Model
    requires StoreOk(s) && id in s.domains
  {
    var d := s.domains[id];
    Model(d.name, d.active, d.recording, Table(s.exts, id), Table(s.conferences, id).Keys,
          Table(s.rings, id), Table(s.ivrs, id), Table(s.queues, id))
  }

  // ---------------------------------------------------- the edit of put_domain

  lemma Absent<F>(rows: map<Uuid, Row<F>>, d: Uuid, number: string)
    requires RowsOk(rows) && number !in Table(rows, d)
    ensures forall w :: w in rows ==> !(rows[w].domain == d && rows[w].number == number)
  {
    TableHas(rows, d);
    hide RowsOk, Table, UniqueKey;
    forall w | w in rows && rows[w].domain == d ensures rows[w].number != number {
      assert OfTable(d)(rows[w]) && NumberOf()(rows[w]) == rows[w].number;
    }
  }

  method AddRow<F(!new)>(rows: map<Uuid, Row<F>>, d: Uuid, number: string, fields: F) returns (rows': map<Uuid, Row<F>>)
    requires RowsOk(rows) && number !in Table(rows, d)
    ensures RowsOk(rows') && Table(rows', d) == Table(rows, d)[number := fields] && OnlyTable(rows, rows', d)
  {
    hide RowsOk, Table;
    Absent(rows, d, number);
    var u := Fresh(rows);
    TablePut(rows, u, Row(d, number, fields));
    return rows[u := Row(d, number, fields)];
  }

  function Numbered(exts: seq<ExtIntent>): set<string> {
    set i | 0 <= i < |exts| :: exts[i].number
  }

  lemma {:induction false} MergedKeys(before: map<string, ExtModel>, exts: seq<ExtIntent>)
    ensures Merged(before, exts).Keys == Numbered(exts)
  {
    if exts != [] {
      MergedKeys(before, exts[..|exts| - 1]);
      assert Numbered(exts) == Numbered(exts[..|exts| - 1]) + {exts[|exts| - 1].number};
    }
  }

  lemma PutOnTop(base: map<string, ExtModel>, m: map<string, ExtModel>, n: string, x: ExtModel)
    ensures base + m[n := x] == (base + m)[n := x]
  {}

  lemma NumberedOnce(exts: seq<ExtIntent>, i: nat)
    requires i < |exts| && ValidExts(exts)
    ensures exts[i].number !in Numbered(exts[..i]) && exts[i].number in Numbered(exts)
  {
    hide ApiNumber;
  }

  lemma NextExt(before: map<string, ExtModel>, base: map<string, ExtModel>, exts: seq<ExtIntent>, i: nat)
    requires i < |exts| && ValidExts(exts)
    requires forall n :: n in base <==> n in before && n in Numbered(exts)
    ensures base + Merged(before, exts[..i + 1])
         == (base + Merged(before, exts[..i]))[exts[i].number := Kept(before, exts[i])]
    ensures exts[i].number !in Merged(before, exts[..i]) && (exts[i].number in base <==> exts[i].number in before)
  {
    hide ValidExts, Numbered;
    NumberedOnce(exts, i);
    MergedKeys(before, exts[..i]);
    assert exts[..i + 1][..i] == exts[..i] && exts[..i + 1][i] == exts[i];
    PutOnTop(base, Merged(before, exts[..i]), exts[i].number, Kept(before, exts[i]));
  }

  /** Delete the extensions that are not listed, rename the listed ones, add the new ones. */
  method PutExtensions(rows: map<Uuid, Row<ExtModel>>, d: Uuid,
      exts: seq<ExtIntent>) returns (rows': map<Uuid, Row<ExtModel>>)
    requires RowsOk(rows) && ValidExts(exts)
    ensures RowsOk(rows') && Table(rows', d) == Merged(Table(rows, d), exts) && OnlyTable(rows, rows', d)
  {
    hide RowsOk, Table, ValidExts;
    var existing := Table(rows, d);
    rows' := Trim(rows, d, Numbered(exts));
    ghost var base := Table(rows', d);
    assert exts[..0] == [] && base + map[] == base;
    for i := 0 to |exts|
      invariant RowsOk(rows') && Table(rows', d) == base + Merged(existing, exts[..i]) && OnlyTable(rows, rows', d)
    {
      ghost var before := rows';
      NextExt(existing, base, exts, i);
      if exts[i].number in existing {
        rows' := Upsert(rows', d, exts[i].number, existing[exts[i].number].(display := exts[i].display));
      } else {
        rows' := AddRow(rows', d, exts[i].number, ExtModel(exts[i].display, true));
      }
      OnlyTableTrans(rows, before, rows', d);
    }
    assert exts[..|exts|] == exts;
    MergedKeys(existing, exts);
    assert base + Merged(existing, exts) == Merged(existing, exts);
  }

  // ----------------------------------------------------- one write on the store

  /** The domain's own row may change its flags and status; every other row is the same. */
  ghost predicate OnlyDomain(s: Store, s': Store, id: Uuid)
    requires id in s.domains
  {
    && s'.domains.Keys == s.domains.Keys
    && (forall j :: j in s.domains && j != id ==> s'.domains[j] == s.domains[j])
    && s'.domains[id].customer == s.domains[id].customer && s'.domains[id].name == s.domains[id].name
  }

  ghost predicate TablesKept(s: Store, s': Store, id: Uuid)
    requires StoreOk(s)
  {
    && RowsOk(s'.exts) && RowsOk(s'.conferences) && RowsOk(s'.rings) && RowsOk(s'.ivrs) && RowsOk(s'.queues)
    && OnlyTable(s.exts, s'.exts, id) && OnlyTable(s.conferences, s'.conferences, id)
    && OnlyTable(s.rings, s'.rings, id)
    && OnlyTable(s.ivrs, s'.ivrs, id) && OnlyTable(s.queues, s'.queues, id)
  }

  lemma KeptHoused<F(!new)>(rows: map<Uuid, Row<F>>, rows': map<Uuid, Row<F>>, id: Uuid, ids: set<Uuid>)
    requires RowsOk(rows) && RowsOk(rows') && OnlyTable(rows, rows', id) && id in ids
    requires forall u :: u in rows ==> rows[u].domain in ids
    ensures forall u :: u in rows' ==> rows'[u].domain in ids
  {
    hide RowsOk, Table;
  }

  lemma KeptStoreOk(s: Store, s': Store, id: Uuid)
    requires StoreOk(s) && id in s.domains && OnlyDomain(s, s', id) && TablesKept(s, s', id)
    ensures StoreOk(s')
  {
    hide RowsOk, OnlyTable;
    KeptHoused(s.exts, s'.exts, id, s.domains.Keys);
    KeptHoused(s.conferences, s'.conferences, id, s.domains.Keys);
    KeptHoused(s.rings, s'.rings, id, s.domains.Keys);
    KeptHoused(s.ivrs, s'.ivrs, id, s.domains.Keys);
    KeptHoused(s.queues, s'.queues, id, s.domains.Keys);
  }

  /** Nobody else's desired state changed. */
  ghost predicate OthersIntact(s: Store, s': Store, id: Uuid)
    requires StoreOk(s) && StoreOk(s')
  {
    forall j :: j in s.domains && j != id ==>
        j in s'.domains && s'.domains[j] == s.domains[j] && ModelOf(s', j) == ModelOf(s, j)
  }

  lemma KeptOthers(s: Store, s': Store, id: Uuid)
    requires StoreOk(s) && StoreOk(s') && id in s.domains && OnlyDomain(s, s', id) && TablesKept(s, s', id)
    ensures OthersIntact(s, s', id)
  {
    hide RowsOk, Table, RowsHoused, UniqueDomains;
  }

  lemma SameTables(s: Store, id: Uuid)
    requires StoreOk(s)
    ensures TablesKept(s, s, id)
  {
    hide RowsOk, Table;
  }

  /** The rows of domain `id` are the model `m`. */
  ghost predicate TablesAre(s: Store, id: Uuid, m: Model)
    requires id in s.domains && RowsOk(s.exts) && RowsOk(s.conferences) && RowsOk(s.rings) && RowsOk(s.ivrs)
    requires RowsOk(s.queues)
  {
    && s.domains[id].name == m.dom && s.domains[id].active == m.active && s.domains[id].recording == m.recording
    && Table(s.exts, id) == m.exts && Table(s.conferences, id).Keys == m.conferences
    && Table(s.rings, id) == m.rings && Table(s.ivrs, id) == m.ivrs && Table(s.queues, id) == m.queues
  }

  ghost predicate Edited(s: Store, s': Store, id: Uuid, e: Event)
    requires StoreOk(s) && id in s.domains
  {
    OnlyDomain(s, s', id) && TablesKept(s, s', id) && TablesAre(s', id, Intended(ModelOf(s, id), e))
  }

  method EditWhole(s: Store, id: Uuid, e: Event) returns (s': Store)
    requires StoreOk(s) && id in s.domains && ValidEvent(e) && (e.PutDomain? || e.PutFeatures? || e.SetActive?)
    requires e.PutDomain? ==> e.name == s.domains[id].name
    ensures Edited(s, s', id, e)
  {
    hide RowsOk, Table, RowsHoused, UniqueDomains, OnlyTable, ValidExts, ValidDomain, Merged, LastOf;
    hide ValidRing, ValidIvr, ValidQueue, ValidEntries;
    SameTables(s, id);
    match e {
      case PutDomain(name, recording, listed) =>
        var exts := PutExtensions(s.exts, id, listed);
        s' := s.(exts := exts, domains := s.domains[id := s.domains[id].(recording := recording)]);
      case PutFeatures(cs, rs, vs, qs) =>
        var conferences := Replace(s.conferences, id, cs);
        var rings := Replace(s.rings, id, rs);
        var ivrs := Replace(s.ivrs, id, vs);
        var queues := Replace(s.queues, id, qs);
        s' := s.(conferences := conferences, rings := rings, ivrs := ivrs, queues := queues);
      case SetActive(active) =>
        s' := s.(domains := s.domains[id := s.domains[id].(active := active)]);
    }
  }

  method EditOne(s: Store, id: Uuid, e: Event) returns (s': Store)
    requires StoreOk(s) && id in s.domains && (e.PostConference? || e.PostRing? || e.PostIvr? || e.PostQueue?)
    ensures Edited(s, s', id, e)
  {
    hide RowsOk, Table, RowsHoused, UniqueDomains, OnlyTable;
    SameTables(s, id);
    match e {
      case PostConference(n) =>
        var conferences := Upsert(s.conferences, id, n, ());
        s' := s.(conferences := conferences);
      case PostRing(n, r) =>
        var rings := Upsert(s.rings, id, n, r);
        s' := s.(rings := rings);
      case PostIvr(n, i) =>
        var ivrs := Upsert(s.ivrs, id, n, i);
        s' := s.(ivrs := ivrs);
      case PostQueue(n, q) =>
        var queues := Upsert(s.queues, id, n, q);
        s' := s.(queues := queues);
    }
  }

  method DeleteOne(s: Store, id: Uuid, k: Kind, n: string) returns (s': Store)
    requires StoreOk(s) && id in s.domains
    ensures Edited(s, s', id, DeleteFeature(k, n))
  {
    hide RowsOk, Table, RowsHoused, UniqueDomains, OnlyTable;
    SameTables(s, id);
    match k {
      case Conference =>
        var conferences := Delete(s.conferences, id, n);
        s' := s.(conferences := conferences);
      case RingGroup =>
        var rings := Delete(s.rings, id, n);
        s' := s.(rings := rings);
      case Ivr =>
        var ivrs := Delete(s.ivrs, id, n);
        s' := s.(ivrs := ivrs);
      case CallQueue =>
        var queues := Delete(s.queues, id, n);
        s' := s.(queues := queues);
    }
  }

  /** One write on the rows of domain `id`, as its handler does it. */
  method Edit(s: Store, id: Uuid, e: Event) returns (s': Store)
    requires StoreOk(s) && id in s.domains && ValidEvent(e) && (e.PutDomain? ==> e.name == s.domains[id].name)
    ensures StoreOk(s') && OnlyDomain(s, s', id) && OthersIntact(s, s', id)
    ensures ModelOf(s', id) == Intended(ModelOf(s, id), e)
    ensures s'.domains[id].recording == if e.PutDomain? then e.recording else s.domains[id].recording
    ensures s'.domains[id].active == if e.SetActive? then e.active else s.domains[id].active
  {
    hide StoreOk, TablesKept, ModelOf, Intended, ValidEvent, OthersIntact;
    ModelFlags(s, id);
    FlagsAfter(ModelOf(s, id), e);
    match e {
      case PutDomain(_, _, _) => s' := EditWhole(s, id, e);
      case PutFeatures(_, _, _, _) => s' := EditWhole(s, id, e);
      case SetActive(_) => s' := EditWhole(s, id, e);
      case DeleteFeature(k, n) => s' := DeleteOne(s, id, k, n);
      case _ => s' := EditOne(s, id, e);
    }
    EditedModel(s, s', id, e);
    ModelFlags(s', id);
  }

  lemma ModelFlags(s: Store, id: Uuid)
    requires StoreOk(s) && id in s.domains
    ensures ModelOf(s, id).recording == s.domains[id].recording && ModelOf(s, id).active == s.domains[id].active
  {
    hide StoreOk;
  }

  lemma EditedModel(s: Store, s': Store, id: Uuid, e: Event)
    requires StoreOk(s) && id in s.domains && Edited(s, s', id, e)
    ensures StoreOk(s') && OnlyDomain(s, s', id) && OthersIntact(s, s', id)
    ensures ModelOf(s', id) == Intended(ModelOf(s, id), e)
  {
    hide RowsOk, Table, RowsHoused, UniqueDomains, OnlyTable, Intended;
    KeptStoreOk(s, s', id);
    KeptOthers(s, s', id);
    hide OnlyDomain, TablesKept;
  }

  // ------------------------------------------------- creating and removing rows

  // No row of any table belongs to domain `id`.
  ghost predicate Unused(s: Store, id: Uuid) {
    && (forall u :: u in s.exts ==> s.exts[u].domain != id)
    && (forall u :: u in s.conferences ==> s.conferences[u].domain != id)
    && (forall u :: u in s.rings ==> s.rings[u].domain != id)
    && (forall u :: u in s.ivrs ==> s.ivrs[u].domain != id)
    && (forall u :: u in s.queues ==> s.queues[u].domain != id)
  }

  lemma EmptyIff(s: Store, id: Uuid)
    requires RowsOk(s.exts) && RowsOk(s.conferences) && RowsOk(s.rings) && RowsOk(s.ivrs) && RowsOk(s.queues)
    ensures Unused(s, id) <==>
      Table(s.exts, id) == map[] && Table(s.conferences, id).Keys == {} && Table(s.rings, id) == map[]
      && Table(s.ivrs, id) == map[] && Table(s.queues, id) == map[]
  {
    hide RowsOk, Table;
    NoRows(s.exts, id);
    NoRows(s.conferences, id);
    NoRows(s.rings, id);
    NoRows(s.ivrs, id);
    NoRows(s.queues, id);
  }

  lemma NewDomain(s: Store, id: Uuid, row: DomainRow)
    requires StoreOk(s) && id !in s.domains
    requires forall j :: j in s.domains ==> s.domains[j].customer != row.customer && s.domains[j].name != row.name
    ensures StoreOk(s.(domains := s.domains[id := row])) && Unused(s.(domains := s.domains[id := row]), id)
  {
    hide RowsOk;
  }

  /** A new voice_domains row: active, and with nothing desired yet. */
  method AddDomain(s: Store, customer: string, name: string) returns (s': Store, id: Uuid)
    requires StoreOk(s) && forall j :: j in s.domains ==> s.domains[j].customer != customer && s.domains[j].name != name
    ensures StoreOk(s') && id !in s.domains
    ensures s' == s.(domains := s.domains[id := DomainRow(customer, name, true, false, None)])
    ensures ModelOf(s', id) == NewModel(name) && OthersIntact(s, s', id)
  {
    hide RowsOk, Table, UniqueDomains, RowsHoused, Unused;
    id := Fresh(s.domains);
    NewDomain(s, id, DomainRow(customer, name, true, false, None));
    s' := s.(domains := s.domains[id := DomainRow(customer, name, true, false, None)]);
    EmptyIff(s', id);
  }

  /** Delete every feature and extension of the domain and force the full removal path. */
  method ClearModels(s: Store, id: Uuid) returns (s': Store)
    requires StoreOk(s) && id in s.domains
    ensures StoreOk(s') && OnlyDomain(s, s', id) && OthersIntact(s, s', id)
    ensures s'.domains[id].recording == s.domains[id].recording
    ensures ModelOf(s', id) == NewModel(s.domains[id].name).(recording := s.domains[id].recording)
  {
    hide RowsOk, Table, RowsHoused, UniqueDomains, OnlyTable;
    var conferences := Trim(s.conferences, id, {});
    var rings := Trim(s.rings, id, {});
    var ivrs := Trim(s.ivrs, id, {});
    var queues := Trim(s.queues, id, {});
    var exts := Trim(s.exts, id, {});
    s' := Store(s.domains[id := s.domains[id].(active := true)], exts, conferences, rings, ivrs, queues);
    NothingKept(s, s', id);
    KeptStoreOk(s, s', id);
    KeptOthers(s, s', id);
    hide OnlyDomain, TablesKept, OthersIntact;
  }

  lemma NothingKept(s: Store, s': Store, id: Uuid)
    requires RowsOk(s'.exts) && RowsOk(s'.conferences) && RowsOk(s'.rings) && RowsOk(s'.ivrs) && RowsOk(s'.queues)
    requires forall n ::
      n !in Table(s'.exts, id) && n !in Table(s'.conferences, id) && n !in Table(s'.rings, id)
      && n !in Table(s'.ivrs, id) && n !in Table(s'.queues, id)
    ensures Table(s'.exts, id) == map[] && Table(s'.conferences, id).Keys == {} && Table(s'.rings, id) == map[]
    ensures Table(s'.ivrs, id) == map[] && Table(s'.queues, id) == map[]
  {
    hide RowsOk, Table;
  }

  /** Delete the voice_domains row of a domain whose desired state is empty. */
  method RemoveDomain(s: Store, id: Uuid) returns (s': Store)
    requires StoreOk(s) && id in s.domains
    requires ModelOf(s, id) == NewModel(s.domains[id].name).(recording := s.domains[id].recording)
    ensures StoreOk(s') && s' == s.(domains := s.domains - {id}) && OthersIntact(s, s', id)
  {
    hide RowsOk, Table, UniqueDomains, RowsHoused, Unused;
    s' := s.(domains := s.domains - {id});
    EmptyIff(s, id);
    RemovedOk(s, id);
  }

  lemma RemovedOk(s: Store, id: Uuid)
    requires StoreOk(s) && id in s.domains && Unused(s, id)
    ensures StoreOk(s.(domains := s.domains - {id}))
  {
    hide RowsOk;
  }
}

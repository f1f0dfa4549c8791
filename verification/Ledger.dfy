/** What a sequence of API calls and their replies asks for, customer by customer: once as the
    model that the writes build up, and once field by field as the last call that spoke of it
    (app/api/provisioning.py:44-201, app/api/voice_features.py:47-318). */
module Ledger {
  import opened Names
  import opened Models
  import opened Rows
  import opened Intents
  import opened Provisioning

  /** Any call of the provisioning API. */
  datatype Call =
    | Write(customer: string, event: Event)
    | Deprovision(customer: string)
    | Resync(customer: string)
    | ResyncEveryone

  datatype Reply = Told(answer: Answer) | Removal(found: bool) | Fleet(ok: bool)

  /** The call is a write of `customer`, and it was committed. */
  predicate Commits(call: Call, r: Reply, customer: string) {
    call.Write? && call.customer == customer && r.Told? && r.answer.Answered?
  }

  // ------------------------------------------------------- the model, write by write

  /** What one call makes of a customer's desired state: committed writes change it, deprovisioning
      ends it, and resyncing leaves it alone. */
  function Booked(before: Option<Model>, call: Call, r: Reply, customer: string): Option<Model> {
    match call
    case Write(c, e) =>
      if c != customer || !r.Told? || !r.answer.Answered? then before
      else
        var base := if before.Some? then before.value else NewModel(if e.PutDomain? then e.name else "");
        Some(Intended(base, e))
    case Deprovision(c) => if c == customer then None else before
    case Resync(_) => before
    case ResyncEveryone => before
  }

  /** The desired state of `customer` after the calls, in order; None without an account. */
  function Book(start: Option<Model>, calls: seq<Call>, replies: seq<Reply>, customer: string): Option<Model>
    requires |replies| == |calls|
  {
    if calls == [] then start
    else
      var i := |calls| - 1;
      Booked(Book(start, calls[..i], replies[..i], customer), calls[i], replies[i], customer)
  }

  lemma BookNext(start: Option<Model>, calls: seq<Call>, replies: seq<Reply>, i: nat, r: Reply, c: string)
    requires i < |calls| && |replies| == i
    ensures Book(start, calls[..i + 1], replies + [r], c) == Booked(Book(start, calls[..i], replies, c), calls[i], r, c)
  {
    assert calls[..i + 1][..i] == calls[..i] && (replies + [r])[..i] == replies;
    hide Booked;
  }

  /** After a deprovisioning a customer's earlier calls no longer matter. */
  lemma {:induction false} BookRestarts(start: Option<Model>, calls: seq<Call>, replies: seq<Reply>, k: nat,
      customer: string)
    requires |replies| == |calls| && k < |calls| && calls[k] == Deprovision(customer)
    ensures Book(start, calls, replies, customer) == Book(None, calls[k + 1..], replies[k + 1..], customer)
  {
    hide Booked;
    var i := |calls| - 1;
    if k == i {
      assert calls[k + 1..] == [];
      DeprovisionEnds(Book(start, calls[..i], replies[..i], customer), replies[i], customer);
    } else {
      BookRestarts(start, calls[..i], replies[..i], k, customer);
      assert calls[..i][k + 1..] == calls[k + 1..][..i - k - 1];
      assert replies[..i][k + 1..] == replies[k + 1..][..i - k - 1];
      assert |calls[k + 1..]| - 1 == i - k - 1 && calls[k + 1..][i - k - 1] == calls[i];
      assert replies[k + 1..][i - k - 1] == replies[i];
    }
  }

  lemma DeprovisionEnds(before: Option<Model>, r: Reply, customer: string)
    ensures Booked(before, Deprovision(customer), r, customer) == None
  {}

  // ---------------------------------------------------------- flags and domain

  /** Calls are recorded if the last committed put_domain since the last deprovisioning says so;
      without one they are not. */
  function LastRecording(start: bool, calls: seq<Call>, replies: seq<Reply>, customer: string): bool
    requires |replies| == |calls|
  {
    if calls == [] then start
    else
      var i := |calls| - 1;
      if calls[i] == Deprovision(customer) then false
      else if Commits(calls[i], replies[i], customer) && calls[i].event.PutDomain? then calls[i].event.recording
      else LastRecording(start, calls[..i], replies[..i], customer)
  }

  /** A customer is active as the last committed suspension or resumption left it, and from the start. */
  function LastActive(start: bool, calls: seq<Call>, replies: seq<Reply>, customer: string): bool
    requires |replies| == |calls|
  {
    if calls == [] then start
    else
      var i := |calls| - 1;
      if calls[i] == Deprovision(customer) then true
      else if Commits(calls[i], replies[i], customer) && calls[i].event.SetActive? then calls[i].event.active
      else LastActive(start, calls[..i], replies[..i], customer)
  }

  /** The domain that the last committed put_domain named; None without an account. */
  function LastDomain(start: Option<string>, calls: seq<Call>, replies: seq<Reply>, customer: string): Option<string>
    requires |replies| == |calls|
  {
    if calls == [] then start
    else
      var i := |calls| - 1;
      if calls[i] == Deprovision(customer) then None
      else if Commits(calls[i], replies[i], customer) && calls[i].event.PutDomain? then Some(calls[i].event.name)
      else LastDomain(start, calls[..i], replies[..i], customer)
  }

  // ------------------------------------------------------------------- features

  datatype Feature = AConference | ARing(ring: RingModel) | AnIvr(ivr: IvrModel) | AQueue(queue: QueueModel)

  function FeatureAt(m: Model, k: Kind, n: string): Option<Feature> {
    match k
    case Conference => if n in m.conferences then Some(AConference) else None
    case RingGroup => if n in m.rings then Some(ARing(m.rings[n])) else None
    case Ivr => if n in m.ivrs then Some(AnIvr(m.ivrs[n])) else None
    case CallQueue => if n in m.queues then Some(AQueue(m.queues[n])) else None
  }

  /** The last entry of a list with this number. */
  function LastEntry<F>(entries: seq<(string, F)>, n: string): Option<F> {
    if entries == [] then None
    else if entries[|entries| - 1].0 == n then Some(entries[|entries| - 1].1)
    else LastEntry(entries[..|entries| - 1], n)
  }

  lemma {:induction false} LastEntryIs<F>(entries: seq<(string, F)>, n: string)
    ensures LastEntry(entries, n) == if n in LastOf(entries) then Some(LastOf(entries)[n]) else None
  {
    if entries != [] {
      LastEntryIs(entries[..|entries| - 1], n);
    }
  }

  function Tagged<F>(entry: Option<F>, tag: F -> Feature): Option<Feature> {
    match entry
    case None => None
    case Some(f) => Some(tag(f))
  }

  /** What one write says about the feature of kind `k` at number `n`; None when it is silent. */
  function Says(e: Event, k: Kind, n: string): Option<Option<Feature>> {
    match e
    case PutFeatures(cs, rs, vs, qs) =>
      (match k
       case Conference => Some(Tagged(LastEntry(cs, n), (f: ()) => AConference))
       case RingGroup => Some(Tagged(LastEntry(rs, n), (f: RingModel) => ARing(f)))
       case Ivr => Some(Tagged(LastEntry(vs, n), (f: IvrModel) => AnIvr(f)))
       case CallQueue => Some(Tagged(LastEntry(qs, n), (f: QueueModel) => AQueue(f))))
    case PostConference(n') => if k == Conference && n' == n then Some(Some(AConference)) else None
    case PostRing(n', r) => if k == RingGroup && n' == n then Some(Some(ARing(r))) else None
    case PostIvr(n', i) => if k == Ivr && n' == n then Some(Some(AnIvr(i))) else None
    case PostQueue(n', q) => if k == CallQueue && n' == n then Some(Some(AQueue(q))) else None
    case DeleteFeature(k', n') => if k' == k && n' == n then Some(None) else None
    case _ => None
  }

  /** The feature is what the last committed write that speaks about it said, since the last
      deprovisioning. */
  function LastFeature(start: Option<Feature>, calls: seq<Call>, replies: seq<Reply>, customer: string, k: Kind,
      n: string): Option<Feature>
    requires |replies| == |calls|
  {
    if calls == [] then start
    else
      var i := |calls| - 1;
      if calls[i] == Deprovision(customer) then None
      else if Commits(calls[i], replies[i], customer) && Says(calls[i].event, k, n).Some? then
        Says(calls[i].event, k, n).value
      else LastFeature(start, calls[..i], replies[..i], customer, k, n)
  }

  lemma ListIsIntended(m: Model, e: Event, k: Kind, n: string)
    requires e.PutFeatures?
    ensures Says(e, k, n) == Some(FeatureAt(Intended(m, e), k, n))
  {
    LastEntryIs(e.conferences, n);
    LastEntryIs(e.rings, n);
    LastEntryIs(e.ivrs, n);
    LastEntryIs(e.queues, n);
    hide LastOf, LastEntry;
  }

  lemma DeleteIsIntended(m: Model, e: Event, k: Kind, n: string)
    requires e.DeleteFeature?
    ensures FeatureAt(Intended(m, e), k, n) == match Says(e, k, n) case None => FeatureAt(m, k, n) case Some(f) => f
  {
    hide LastOf, Merged, LastEntry;
    DeleteAt(m, e.kind, e.number, k, n);
    hide Intended, FeatureAt;
  }

  lemma DeleteAt(m: Model, k': Kind, n': string, k: Kind, n: string)
    ensures FeatureAt(Intended(m, DeleteFeature(k', n')), k, n) ==
      if k' == k && n' == n then None else FeatureAt(m, k, n)
  {
    match k' {
      case Conference =>
      case RingGroup =>
      case Ivr =>
      case CallQueue =>
    }
  }

  lemma PostIsIntended(m: Model, e: Event, k: Kind, n: string)
    requires e.PostConference? || e.PostRing? || e.PostIvr? || e.PostQueue?
    ensures FeatureAt(Intended(m, e), k, n) == match Says(e, k, n) case None => FeatureAt(m, k, n) case Some(f) => f
  {
    hide LastOf, Merged, LastEntry;
  }

  lemma SaysIsIntended(m: Model, e: Event, k: Kind, n: string)
    ensures FeatureAt(Intended(m, e), k, n) == match Says(e, k, n) case None => FeatureAt(m, k, n) case Some(f) => f
  {
    if e.PutFeatures? {
      ListIsIntended(m, e, k, n);
    } else if e.DeleteFeature? {
      DeleteIsIntended(m, e, k, n);
    } else if !e.PutDomain? && !e.SetActive? {
      PostIsIntended(m, e, k, n);
    } else {
      hide LastOf, Merged, LastEntry;
    }
  }

  // ----------------------------------------------------------------- extensions

  /** The display name under which a put_domain lists a number. */
  function Listed(exts: seq<ExtIntent>, n: string): Option<string> {
    if exts == [] then None
    else if exts[|exts| - 1].number == n then Some(exts[|exts| - 1].display)
    else Listed(exts[..|exts| - 1], n)
  }

  lemma {:induction false} MergedIsListed(earlier: map<string, ExtModel>, exts: seq<ExtIntent>, n: string)
    ensures n in Merged(earlier, exts) <==> Listed(exts, n).Some?
    ensures n in Merged(earlier, exts) ==>
      Merged(earlier, exts)[n] == ExtModel(Listed(exts, n).value, if n in earlier then earlier[n].voicemail else true)
  {
    if exts != [] {
      MergedIsListed(earlier, exts[..|exts| - 1], n);
    }
  }

  function ExtAt(m: Model, n: string): Option<ExtModel> {
    if n in m.exts then Some(m.exts[n]) else None
  }

  /** An extension exists if the last put_domain lists it, under that name; its voicemail
      setting survives as long as every put_domain lists it, and is on otherwise. */
  function LastExt(start: Option<ExtModel>, calls: seq<Call>, replies: seq<Reply>, customer: string,
      n: string): Option<ExtModel>
    requires |replies| == |calls|
  {
    if calls == [] then start
    else
      var i := |calls| - 1;
      var before := LastExt(start, calls[..i], replies[..i], customer, n);
      if calls[i] == Deprovision(customer) then None
      else if Commits(calls[i], replies[i], customer) && calls[i].event.PutDomain? then
        match Listed(calls[i].event.exts, n)
        case None => None
        case Some(display) => Some(ExtModel(display, before.Some? ==> before.value.voicemail))
      else before
  }

  lemma ExtsAfter(m: Model, e: Event, n: string)
    ensures ExtAt(Intended(m, e), n) ==
      if !e.PutDomain? then ExtAt(m, n)
      else match Listed(e.exts, n)
           case None => None
           case Some(display) => Some(ExtModel(display, ExtAt(m, n).Some? ==> ExtAt(m, n).value.voicemail))
  {
    if e.PutDomain? {
      MergedIsListed(m.exts, e.exts, n);
    }
    hide Merged, LastOf, Listed;
  }

  // ------------------------------------------------------ both accounts agree

  function RecordingIn(m: Option<Model>): bool {
    m.Some? && m.value.recording
  }

  function ActiveIn(m: Option<Model>): bool {
    m.Some? ==> m.value.active
  }

  function DomainIn(m: Option<Model>): Option<string> {
    if m.Some? then Some(m.value.dom) else None
  }

  function FeatureIn(m: Option<Model>, k: Kind, n: string): Option<Feature> {
    if m.Some? then FeatureAt(m.value, k, n) else None
  }

  function ExtIn(m: Option<Model>, n: string): Option<ExtModel> {
    if m.Some? then ExtAt(m.value, n) else None
  }

  lemma {:induction false} LastFlagsWin(start: Option<Model>, calls: seq<Call>, replies: seq<Reply>, customer: string)
    requires |replies| == |calls|
    ensures var now := Book(start, calls, replies, customer);
      && RecordingIn(now) == LastRecording(RecordingIn(start), calls, replies, customer)
      && ActiveIn(now) == LastActive(ActiveIn(start), calls, replies, customer)
  {
    if calls != [] {
      var i := |calls| - 1;
      LastFlagsWin(start, calls[..i], replies[..i], customer);
      if Commits(calls[i], replies[i], customer) {
        var before, e := Book(start, calls[..i], replies[..i], customer), calls[i].event;
        FlagsAfter(if before.Some? then before.value else NewModel(if e.PutDomain? then e.name else ""), e);
      }
      hide Intended;
    }
  }

  /** For every kind and number the last committed write that speaks about it decides. */
  lemma {:induction false} LastIntentWins(start: Option<Model>, calls: seq<Call>, replies: seq<Reply>,
      customer: string, k: Kind, n: string)
    requires |replies| == |calls|
    ensures FeatureIn(Book(start, calls, replies, customer), k, n) ==
      LastFeature(FeatureIn(start, k, n), calls, replies, customer, k, n)
  {
    if calls != [] {
      var i := |calls| - 1;
      LastIntentWins(start, calls[..i], replies[..i], customer, k, n);
      if Commits(calls[i], replies[i], customer) {
        var before, e := Book(start, calls[..i], replies[..i], customer), calls[i].event;
        SaysIsIntended(if before.Some? then before.value else NewModel(if e.PutDomain? then e.name else ""), e, k, n);
      }
      hide Intended, Says;
    }
  }

  lemma {:induction false} LastListingWins(start: Option<Model>, calls: seq<Call>, replies: seq<Reply>,
      customer: string, n: string)
    requires |replies| == |calls|
    ensures ExtIn(Book(start, calls, replies, customer), n) ==
      LastExt(ExtIn(start, n), calls, replies, customer, n)
  {
    if calls != [] {
      var i := |calls| - 1;
      LastListingWins(start, calls[..i], replies[..i], customer, n);
      if Commits(calls[i], replies[i], customer) {
        var before, e := Book(start, calls[..i], replies[..i], customer), calls[i].event;
        ExtsAfter(if before.Some? then before.value else NewModel(if e.PutDomain? then e.name else ""), e, n);
      }
      hide Intended, Listed;
    }
  }

  /** Domain, flags, features and extensions are each as the last committed call that spoke of
      them left them; without an account there is none of them. */
  ghost predicate Recorded(start: Option<Model>, now: Option<Model>, calls: seq<Call>, replies: seq<Reply>,
      customer: string)
    requires |replies| == |calls|
  {
    && DomainIn(now) == LastDomain(DomainIn(start), calls, replies, customer)
    && RecordingIn(now) == LastRecording(RecordingIn(start), calls, replies, customer)
    && ActiveIn(now) == LastActive(ActiveIn(start), calls, replies, customer)
    && (forall k, n :: FeatureIn(now, k, n) == LastFeature(FeatureIn(start, k, n), calls, replies, customer, k, n))
    && (forall n :: ExtIn(now, n) == LastExt(ExtIn(start, n), calls, replies, customer, n))
  }

  lemma BookIsRecorded(start: Option<Model>, calls: seq<Call>, replies: seq<Reply>, customer: string)
    requires |replies| == |calls|
    requires DomainIn(Book(start, calls, replies, customer)) == LastDomain(DomainIn(start), calls, replies, customer)
    ensures Recorded(start, Book(start, calls, replies, customer), calls, replies, customer)
  {
    hide Book, LastDomain, LastRecording, LastActive, LastFeature, LastExt, FeatureIn, ExtIn;
    LastFlagsWin(start, calls, replies, customer);
    forall k, n ensures FeatureIn(Book(start, calls, replies, customer), k, n)
        == LastFeature(FeatureIn(start, k, n), calls, replies, customer, k, n) {
      LastIntentWins(start, calls, replies, customer, k, n);
    }
    forall n ensures ExtIn(Book(start, calls, replies, customer), n)
        == LastExt(ExtIn(start, n), calls, replies, customer, n) {
      LastListingWins(start, calls, replies, customer, n);
    }
  }
}

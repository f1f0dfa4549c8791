/** Numbers with two owners: what happens to tenants whose features share a dialplan name. */
module Collisions {
  import opened Names
  import opened Tables
  import opened Client
  import opened Models
  import opened Progress
  import opened Scripts
  import opened Voice
  import opened Outcomes

  function OneConference(d: string, n: string): Model {
    Model(d, true, false, map[], {n}, map[], map[], map[])
  }

  /** No PBX state gives both tenants the conferences they want. */
  ghost predicate NeverBoth(ma: Model, mb: Model) {
    forall v :: !(SettledKind(v, ma, Conference) && SettledKind(v, mb, Conference))
  }

  /** Two tenants' conferences exclude each other exactly when their dialplans share a name. */
  lemma NeverBothIff(a: string, n: string, b: string, m: string)
    requires a != b
    ensures NeverBoth(OneConference(a, n), OneConference(b, m)) <==>
      FeatureName(Conference, a, n) == FeatureName(Conference, b, m)
  {
    var ma, mb := OneConference(a, n), OneConference(b, m);
    assert n in Numbers(ma, Conference) && m in Numbers(mb, Conference);
    assert forall x :: x in Numbers(ma, Conference) ==> x == n;
    assert forall x :: x in Numbers(mb, Conference) ==> x == m;
    assert XmlFor(ma, Conference, n).dom == a && XmlFor(mb, Conference, m).dom == b;
    hide XmlFor, Numbers, FeatureName;
    if FeatureName(Conference, a, n) != FeatureName(Conference, b, m) {
      var v := View({}, map[], map[],
                    map[FeatureName(Conference, a, n) := Plan(XmlFor(ma, Conference, n), FeatureTag(a)),
                        FeatureName(Conference, b, m) := Plan(XmlFor(mb, Conference, m), FeatureTag(b))], map[], map[]);
      assert SettledKind(v, ma, Conference) && SettledKind(v, mb, Conference);
    }
  }

  /** A tenant with a number that is not its own has a possible neighbour to fight with. */
  lemma SharedNumberFights(names: iset<string>, d: string, n: string)
    requires ValidDomain(d) && ValidToken(n) && !Mine(names, d, n) && forall b :: b in names ==> ValidDomain(b)
    ensures exists b, m ::
      b in names && b != d && ValidModel(OneConference(b, m))
      && NeverBoth(OneConference(d, n), OneConference(b, m))
  {
    SharedOtherwise(names, d, n);
    var b, m :| b in names && b != d && ValidToken(m) && forall k :: FeatureName(k, d, n) == FeatureName(k, b, m);
    NeverBothIff(d, n, b, m);
    assert ValidModel(OneConference(b, m)) by { hide ValidDomain, ValidToken; }
  }

  /** Two tenants of which one domain hyphen-extends the other can hold desired states that no
      PBX state settles at once. */
  lemma CollidingTenantsFight(a: string, b: string)
    requires ValidDomain(a) && ValidDomain(b) && HyphenExtends(a, b)
    ensures var n := b[|a| + 1..] + "-1";
      && ValidModel(OneConference(a, n)) && ValidModel(OneConference(b, "1"))
      && NeverBoth(OneConference(a, n), OneConference(b, "1"))
  {
    var n := b[|a| + 1..] + "-1";
    CollidingNumbers(a, b);
    NeverBothIff(a, n, b, "1");
    hide ValidDomain, ValidToken, NeverBoth;
  }

  /** Such tenants overwrite each other for ever: reconciled in turn, every run is synced, and
      every run takes from the other tenant what the run before had given it. */
  method OverwriteEachOther(c: FusionpbxClient, ma: Model, mb: Model, rounds: nat) returns (ghost views: seq<View>)
    requires c.Valid() && ValidModel(ma) && ValidModel(mb) && ma.active && mb.active && NeverBoth(ma, mb)
    requires TagsFit(c.view, ma.dom) && TagsFit(c.view, mb.dom) && forall i :: !c.outage(i)
    modifies c
    ensures |views| == 2 * rounds
    ensures forall i :: 0 <= i < |views| ==>
      Settled(views[i], Turn(ma, mb, i)) && !Settled(views[i], Turn(ma, mb, i + 1))
    ensures forall i :: 0 < i < |views| ==> views[i] != views[i - 1]
  {
    hide FusionpbxClient.Valid, ValidModel, NeverBoth, TagsFit, Settled, Reconciled, Effective;
    views := [];
    for k := 0 to 2 * rounds
      invariant c.Valid() && TagsFit(c.view, ma.dom) && TagsFit(c.view, mb.dom) && |views| == k
      invariant forall i :: 0 <= i < k ==> Settled(views[i], Turn(ma, mb, i)) && !Settled(views[i], Turn(ma, mb, i + 1))
    {
      ghost var s := Now(c);
      var m := if k % 2 == 0 then ma else mb;
      EffectiveValid(m);
      var status := ReconcileVoice(c, m);
      SyncedRun(s, Now(c), m, c.outage, status);
      ReconciledFits(s, Now(c), m, c.outage, status, ma.dom);
      ReconciledFits(s, Now(c), m, c.outage, status, mb.dom);
      OneSettled(ma, mb, c.view);
      views := views + [c.view];
    }
  }

  function Turn(ma: Model, mb: Model, i: int): Model {
    if i % 2 == 0 then ma else mb
  }

  lemma SyncedRun(s: Snap, s': Snap, m: Model, outage: nat -> bool, status: SyncStatus)
    requires Reconciled(s, s', m, outage, status) && forall i :: !outage(i)
    ensures status == Synced && Settled(s'.view, m)
  {
    hide Advanced, Settled, ChoiceOk, Ran, Script;
    var o, done := RunCalls(s, s', m, outage, status);
  }

  lemma ReconciledFits(s: Snap, s': Snap, m: Model, outage: nat -> bool, status: SyncStatus, d: string)
    requires Reconciled(s, s', m, outage, status) && TagsFit(s.view, d)
    ensures TagsFit(s'.view, d)
  {
    hide Reconciled, TagsFit, PlansBetween;
    ReconciledBetween(s, s', m, outage, status);
    TagsStayFit(s.view, s'.view, m, d);
  }

  lemma OneSettled(ma: Model, mb: Model, v: View)
    requires NeverBoth(ma, mb)
    ensures !(Settled(v, ma) && Settled(v, mb))
  {
    hide SettledKind, SettledExts, SettledBoxes, SettledShared, SettledQueues, OnlyWantedPlans;
  }
}

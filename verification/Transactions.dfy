/** One transaction of the client at a time, on a working copy of the tables. */
module Transactions {
  import opened Names
  import opened Sets
  import opened Indexed
  import opened Tables
  import opened Steps
  import opened CallCenter

  function AnyRow(): ExtensionRow -> bool {
    (r: ExtensionRow) => true
  }

  /** Refresh the names of an existing row; its secret stays. */
  method RefreshExtension(t: Db, ghost v: View, d: string, u: Uuid, display: string) returns (t': Db, secret: nat,
      wrote: bool)
    requires WellFormed(t) && Shows(t, v) && d in v.domains && u in t.extensions
    requires OfDomain(t.domains, t.extensions[u].domain, d)
    ensures WellFormed(t') && Shows(t', PutExt(v, d, t.extensions[u].number, display)) && OthersKept(t, t', d)
    ensures t' == t.(extensions := t'.extensions) && (!wrote ==> t' == t)
    ensures wrote <==> PutExt(v, d, t.extensions[u].number, display).exts != v.exts
    ensures IsRowOf(t', u, d, t.extensions[u].number, secret) && SecretsKept(t.extensions, t'.extensions, AnyRow())
  {
    hide WellFormed, Shows, OthersKept, PutExt, SecretsKept, IsRowOf;
    UpdateExtension(t, v, u, d, display);
    var row := t.extensions[u].(callerIdName := display, outboundName := display, directoryName := display);
    RowWritten(t, u, row, d);
    secret, wrote := row.secret, row != t.extensions[u];
    assert !wrote ==> t.extensions[u := row] == t.extensions;
    t' := t.(extensions := t.extensions[u := row]);
  }

  /** Insert a row with a new secret. */
  method NewExtension(t: Db, ghost v: View, d: string, du: Uuid, number: string, display: string) returns (t': Db,
      u: Uuid, secret: nat)
    requires WellFormed(t) && Shows(t, v) && d in v.domains && OfDomain(t.domains, du, d)
    requires forall w :: w in t.extensions ==> !(t.extensions[w].domain == du && t.extensions[w].number == number)
    ensures WellFormed(t') && Shows(t', PutExt(v, d, number, display)) && OthersKept(t, t', d)
    ensures t' == t.(extensions := t'.extensions)
    ensures PutExt(v, d, number, display).exts != v.exts
    ensures IsRowOf(t', u, d, number, secret) && SecretsKept(t.extensions, t'.extensions, AnyRow())
  {
    hide WellFormed, Shows, OthersKept, PutExt, SecretsKept, IsRowOf;
    u := Fresh(t.extensions);
    secret := *;
    var row := ExtensionRow(du, number, secret, display, display, display);
    InsertExtension(t, v, u, row, d);
    RowWritten(t, u, row, d);
    t' := t.(extensions := t.extensions[u := row]);
  }

  /** The create-or-refresh transaction for one extension on a working copy. */
  method EnsureExtensionRow(t: Db, ghost v: View, d: string, number: string, display: string) returns (t': Db, u: Uuid,
      secret: nat, wrote: bool)
    requires WellFormed(t) && Shows(t, v)
    ensures WellFormed(t') && Shows(t', PutExt(v, d, number, display)) && OthersKept(t, t', d)
    ensures t'.dialplans == t.dialplans
    ensures wrote <==> PutExt(v, d, number, display).exts != v.exts
    ensures PutExt(v, d, number, display) == v ==> t' == t
    ensures IsRowOf(t', u, d, number, secret) && SecretsKept(t.extensions, t'.extensions, AnyRow())
  {
    hide WellFormed, Shows, OthersKept, PutExt, SecretsKept, IsRowOf;
    var t1, du := EnsureDomainRow(t, v, d);
    ghost var v1 := WithDomain(v, d);
    PutExtKnown(v, d, number, display);
    wrote := true;
    if w :| w in t1.extensions && t1.extensions[w].domain == du && t1.extensions[w].number == number {
      u := w;
      t', secret, wrote := RefreshExtension(t1, v1, d, u, display);
    } else {
      t', u, secret := NewExtension(t1, v1, d, du, number, display);
    }
    OthersKeptTrans(t, t1, t', d);
  }

  predicate IsRowOf(t: Db, u: Uuid, d: string, number: string, secret: nat) {
    && u in t.extensions && OfDomain(t.domains, t.extensions[u].domain, d)
    && t.extensions[u].number == number && t.extensions[u].secret == secret
  }

  lemma PutExtKnown(v: View, d: string, number: string, display: string)
    ensures PutExt(WithDomain(v, d), d, number, display) == PutExt(v, d, number, display)
    ensures PutExt(v, d, number, display) == v ==> d in v.domains && PutExt(v, d, number, display).exts == v.exts
  {
    assert v.domains + {d} + {d} == v.domains + {d};
    assert d in PutExt(v, d, number, display).domains;
  }

  predicate SameLogin(r: ExtensionRow, s: ExtensionRow) {
    r.secret == s.secret && r.domain == s.domain && r.number == s.number
  }

  /** Rows that `mine` picks stay, with their secrets. */
  ghost predicate SecretsKept(rows: map<Uuid, ExtensionRow>, rows': map<Uuid, ExtensionRow>,
      mine: ExtensionRow -> bool) {
    forall u :: u in rows && mine(rows[u]) ==> u in rows' && SameLogin(rows[u], rows'[u])
  }

  lemma SecretsSame(rows: map<Uuid, ExtensionRow>)
    ensures SecretsKept(rows, rows, AnyRow())
  {}

  lemma RowWritten(t: Db, u: Uuid, row: ExtensionRow, d: string)
    requires OfDomain(t.domains, row.domain, d) && (u in t.extensions ==> SameLogin(t.extensions[u], row))
    ensures var t' := t.(extensions := t.extensions[u := row]);
      IsRowOf(t', u, d, row.number, row.secret) && SecretsKept(t.extensions, t'.extensions, AnyRow())
  {}

  lemma SecretsSome(rows: map<Uuid, ExtensionRow>, mine: ExtensionRow -> bool)
    ensures SecretsKept(rows, rows, mine)
  {}

  lemma ExtensionNumbers(t: Db, v: View, d: string)
    requires WellFormed(t) && Shows(t, v)
    ensures (set u | u in t.extensions
        && OfDomain(t.domains, t.extensions[u].domain, d) :: t.extensions[u].number) == NumbersIn(v.exts, d)
  {
    hide UniqueKey, VoicemailsOk, CallCenterOk, DomainsOk;
    var found := set u | u in t.extensions && OfDomain(t.domains, t.extensions[u].domain, d) :: t.extensions[u].number;
    forall n | n in NumbersIn(v.exts, d) ensures n in found {
      assert Key(d, n) in v.exts;
      var u :| u in t.extensions && All()(t.extensions[u]) && ExtKey(t.domains)(t.extensions[u]) == Key(d, n);
      assert t.extensions[u].number == n;
    }
    forall n | n in found ensures n in NumbersIn(v.exts, d) {
      var u :| u in t.extensions && OfDomain(t.domains, t.extensions[u].domain, d) && t.extensions[u].number == n;
      assert ExtKey(t.domains)(t.extensions[u]) == Key(d, n);
    }
  }

  lemma UpdateExtension(t: Db, v: View, u: Uuid, d: string, display: string)
    requires WellFormed(t) && Shows(t, v) && d in v.domains && u in t.extensions
    requires OfDomain(t.domains, t.extensions[u].domain, d)
    ensures var row := t.extensions[u].(callerIdName := display, outboundName := display, directoryName := display);
      var t' := t.(extensions := t.extensions[u := row]);
      && WellFormed(t') && OthersKept(t, t', d) && Shows(t', PutExt(v, d, row.number, display))
      && (PutExt(v, d, row.number, display).exts == v.exts <==> row == t.extensions[u])
  {
    hide WellFormed, Shows, OthersKept, WithDomain, Takes;
    var row := t.extensions[u].(callerIdName := display, outboundName := display, directoryName := display);
    SameNumberTakes(t, u, row);
    PutExtension(t, v, u, row, d);
    DomainKnown(t, v, d);
    ExtensionKnown(t, v, u, d);
    assert PutExt(v, d, row.number, display).exts[Key(d, row.number)] == ExtNames(display, display, display);
  }

  lemma SameNumberTakes(t: Db, u: Uuid, row: ExtensionRow)
    requires u in t.extensions && row.domain == t.extensions[u].domain && row.number == t.extensions[u].number
    ensures Takes(t.extensions, All(), ExtKey(t.domains), u, row)
  {}

  lemma ExtensionKnown(t: Db, v: View, u: Uuid, d: string)
    requires Shows(t, v) && u in t.extensions && OfDomain(t.domains, t.extensions[u].domain, d)
    ensures var key := Key(d, t.extensions[u].number); key in v.exts && v.exts[key] == ExtVal()(u, t.extensions[u])
  {}

  lemma InsertExtension(t: Db, v: View, u: Uuid, row: ExtensionRow, d: string)
    requires WellFormed(t) && Shows(t, v) && d in v.domains && u !in t.extensions && OfDomain(t.domains, row.domain, d)
    requires forall w :: w in t.extensions ==>
      !(t.extensions[w].domain == row.domain && t.extensions[w].number == row.number)
    requires row.callerIdName == row.outboundName == row.directoryName
    ensures var t' := t.(extensions := t.extensions[u := row]);
      && WellFormed(t') && OthersKept(t, t', d) && Shows(t', PutExt(v, d, row.number, row.callerIdName))
      && PutExt(v, d, row.number, row.callerIdName).exts != v.exts
  {
    assert Takes(t.extensions, All(), ExtKey(t.domains), u, row) by {
      hide UniqueKey, VoicemailsOk, CallCenterOk;
    }
    PutExtension(t, v, u, row, d);
    DomainKnown(t, v, d);
    assert ExtKey(t.domains)(row) == Key(d, row.number);
    assert Key(d, row.number) !in v.exts && Key(d, row.number) in PutExt(v, d, row.number, row.callerIdName).exts;
    hide WellFormed, Shows, OthersKept, WithDomain, Takes;
  }

  // --------------------------------------------------------------- extensions

  function NotNumber(domains: map<Uuid, string>, d: string, number: string): ExtensionRow -> bool {
    (r: ExtensionRow) => !(OfDomain(domains, r.domain, d) && r.number == number)
  }

  lemma NoDomainNoKeys(t: Db, v: View, d: string)
    requires WellFormed(t) && Shows(t, v) && forall u :: u in t.domains ==> t.domains[u] != d
    ensures forall k :: k in v.exts || k in v.boxes || k in v.queues ==> k.dom != d
  {
    hide UniqueKey, DomainsOk, AgentsOk, TiersOk, AgentsOf;
    forall k | k in v.exts ensures k.dom != d {
      var u :| u in t.extensions && All()(t.extensions[u]) && ExtKey(t.domains)(t.extensions[u]) == k;
    }
    forall k | k in v.boxes ensures k.dom != d {
      var u :| u in t.voicemails && All()(t.voicemails[u]) && BoxKey(t.domains)(t.voicemails[u]) == k;
    }
    forall k | k in v.queues ensures k.dom != d {
      var u :| u in t.queues && All()(t.queues[u]) && QueueKey(t.domains)(t.queues[u]) == k;
    }
  }

  lemma ExtensionPresent(t: Db, v: View, du: Uuid, d: string, number: string)
    requires WellFormed(t) && Shows(t, v) && OfDomain(t.domains, du, d)
    ensures Key(d, number) in v.exts <==> DeleteExtensions(t.extensions, du, number) != t.extensions
  {
    hide UniqueKey, VoicemailsOk, CallCenterOk, IsIndex;
    IndexHas(t.extensions, All(), ExtKey(t.domains), ExtVal(), v.exts, Key(d, number));
    assert forall u :: u in t.extensions ==>
      (u in DeleteExtensions(t.extensions, du, number) <==> ExtKey(t.domains)(t.extensions[u]) != Key(d, number));
    hide DomainsOk, ExtensionsOk, ExtKey, WellFormed, Shows;
    SameUnlessDropped(t.extensions, DeleteExtensions(t.extensions, du, number));
  }

  lemma SameUnlessDropped<R>(rows: map<Uuid, R>, rows': map<Uuid, R>)
    requires forall u :: u in rows' ==> u in rows && rows'[u] == rows[u]
    ensures rows' != rows <==> exists u :: u in rows && u !in rows'
  {
    if forall u :: u in rows ==> u in rows' {
      assert rows' == rows;
    }
  }

  method DropExtensionRows(t: Db, ghost v: View, d: string, number: string) returns (t': Db, deleted: bool)
    requires WellFormed(t) && Shows(t, v)
    ensures WellFormed(t') && Shows(t', DropExt(v, d, number)) && OthersKept(t, t', d)
    ensures t'.dialplans == t.dialplans
    ensures deleted <==> Key(d, number) in v.exts
    ensures deleted <==> DropExt(v, d, number) != v
    ensures !deleted ==> t' == t
    ensures SecretsKept(t.extensions, t'.extensions, NotNumber(t.domains, d, number))
  {
    hide WellFormed, Shows, OthersKept, DropExt;
    DropAbsent(v, d, number);
    OthersKeptRefl(t, d);
    if du :| du in t.domains && t.domains[du] == d {
      var rows := DeleteExtensions(t.extensions, du, number);
      DeleteExtension(t, v, du, d, number);
      ExtensionPresent(t, v, du, d, number);
      return t.(extensions := rows), rows != t.extensions;
    }
    NoDomainNoKeys(t, v, d);
    return t, false;
  }

  lemma DropAbsent(v: View, d: string, number: string)
    ensures DropExt(v, d, number) == v <==> Key(d, number) !in v.exts
    ensures DropBox(v, d, number) == v <==> Key(d, number) !in v.boxes
  {
    if Key(d, number) !in v.exts {
      assert v.exts - {Key(d, number)} == v.exts;
    }
    if Key(d, number) !in v.boxes {
      assert v.boxes - {Key(d, number)} == v.boxes;
    }
  }

  // --------------------------------------------------------------- voicemails

  lemma BoxKnown(t: Db, v: View, du: Uuid, d: string, number: string)
    requires WellFormed(t) && Shows(t, v) && OfDomain(t.domains, du, d)
    ensures Key(d, number) in v.boxes <==>
            exists u :: u in t.voicemails && t.voicemails[u].domain == du && t.voicemails[u].id == number
    ensures Key(d, number) in v.boxes <==> DeleteVoicemails(t.voicemails, du, number) != t.voicemails
  {
    hide UniqueKey, ExtensionsOk, CallCenterOk, IsIndex;
    IndexHas(t.voicemails, All(), BoxKey(t.domains), BoxVal(), v.boxes, Key(d, number));
    assert forall u :: u in t.voicemails ==>
      (u in DeleteVoicemails(t.voicemails, du, number) <==> BoxKey(t.domains)(t.voicemails[u]) != Key(d, number));
    hide DomainsOk, VoicemailsOk, BoxKey, WellFormed, Shows;
    SameUnlessDropped(t.voicemails, DeleteVoicemails(t.voicemails, du, number));
  }

  lemma InsertVoicemail(t: Db, v: View, u: Uuid, row: VoicemailRow, d: string)
    requires WellFormed(t) && Shows(t, v) && d in v.domains && u !in t.voicemails && OfDomain(t.domains, row.domain, d)
    requires Key(d, row.id) !in v.boxes
    ensures var t' := t.(voicemails := t.voicemails[u := row]);
      WellFormed(t') && OthersKept(t, t', d) && Shows(t', PutBox(v, d, row.id, row.password))
  {
    BoxKnown(t, v, row.domain, d, row.id);
    assert Takes(t.voicemails, All(), BoxKey(t.domains), u, row) by {
      hide UniqueKey, ExtensionsOk, CallCenterOk;
    }
    PutVoicemail(t, v, u, row, d);
    DomainKnown(t, v, d);
    hide WellFormed, Shows, OthersKept, WithDomain, Takes;
  }

  method EnsureVoicemailRow(t: Db, ghost v: View, d: string, number: string, password: string) returns (t': Db,
      wrote: bool)
    requires WellFormed(t) && Shows(t, v)
    ensures WellFormed(t') && Shows(t', PutBox(v, d, number, password)) && OthersKept(t, t', d)
    ensures t'.extensions == t.extensions && t'.dialplans == t.dialplans
    ensures wrote <==> Key(d, number) !in v.boxes
    ensures PutBox(v, d, number, password) == v ==> t' == t
  {
    hide WellFormed, Shows, OthersKept;
    var t1, du := EnsureDomainRow(t, v, d);
    ghost var v1 := WithDomain(v, d);
    assert v1.domains + {d} == v1.domains;
    assert PutBox(v, d, number, password) == v ==> d in v.domains by {
      assert d in PutBox(v, d, number, password).domains;
    }
    BoxKnown(t1, v1, du, d, number);
    if exists u :: u in t1.voicemails && t1.voicemails[u].domain == du && t1.voicemails[u].id == number {
      return t1, false;
    }
    var u := Fresh(t1.voicemails);
    InsertVoicemail(t1, v1, u, VoicemailRow(du, number, password), d);
    t', wrote := t1.(voicemails := t1.voicemails[u := VoicemailRow(du, number, password)]), true;
    assert Key(d, number) in PutBox(v, d, number, password).boxes;
    OthersKeptTrans(t, t1, t', d);
  }

  method DropVoicemailRows(t: Db, ghost v: View, d: string, number: string) returns (t': Db, deleted: bool)
    requires WellFormed(t) && Shows(t, v)
    ensures WellFormed(t') && Shows(t', DropBox(v, d, number)) && OthersKept(t, t', d)
    ensures t'.extensions == t.extensions && t'.dialplans == t.dialplans
    ensures deleted <==> Key(d, number) in v.boxes
    ensures !deleted ==> t' == t
  {
    hide WellFormed, Shows, OthersKept, DropBox;
    DropAbsent(v, d, number);
    OthersKeptRefl(t, d);
    if du :| du in t.domains && t.domains[du] == d {
      var rows := DeleteVoicemails(t.voicemails, du, number);
      DeleteVoicemail(t, v, du, d, number);
      BoxKnown(t, v, du, d, number);
      return t.(voicemails := rows), rows != t.voicemails;
    }
    NoDomainNoKeys(t, v, d);
    return t, false;
  }

  // ---------------------------------------------------------------- dialplans

  method EnsurePlan(t: Db, ghost v: View, d: string, name: string, number: string, order: int, xml: Xml, tag: Tag)
    returns (t': Db, changed: bool)
    requires WellFormed(t) && Shows(t, v)
    ensures WellFormed(t') && Shows(t', PutPlan(v, d, name, xml, tag)) && OthersKept(t, t', d)
    ensures PlansKept(t, t', iset{name}) && PlanRowFits(t, t', name, number, order)
    ensures t'.extensions == t.extensions
    ensures changed <==> PutPlan(v, d, name, xml, tag).plans != v.plans
    ensures PutPlan(v, d, name, xml, tag) == v ==> t' == t
  {
    hide WellFormed, Shows, OthersKept, PlansKept;
    var t1, du := EnsureDomainRow(t, v, d);
    ghost var v1 := WithDomain(v, d);
    PutPlanKnown(v, d, name, xml, tag);
    hide PutPlan;
    t', changed := EnsureDialplanRow(t1, v1, d, name, number, order, xml, tag);
    SamePlansKept(t, t1, iset{name});
    PlansKeptTrans(t, t1, t', iset{name}, iset{name});
    OthersKeptTrans(t, t1, t', d);
  }

  lemma PutPlanKnown(v: View, d: string, name: string, xml: Xml, tag: Tag)
    ensures var v1, w := WithDomain(v, d), PutPlan(v, d, name, xml, tag);
      && PutPlan(v1, d, name, xml, tag) == w
      && (w == v1 <==> w.plans == v.plans)
      && (w == v ==> d in v.domains && w == v1)
  {
    var v1, w := WithDomain(v, d), PutPlan(v, d, name, xml, tag);
    assert v1.domains + {d} == v1.domains == w.domains;
    assert d in w.domains;
  }

  lemma PlanPresent(t: Db, v: View, name: string)
    requires Shows(t, v)
    ensures name in v.plans <==> DeletePlans(t.dialplans, name) != t.dialplans
  {
    if name in v.plans {
      var u :| u in t.dialplans && IsPublic()(t.dialplans[u]) && PlanKey()(t.dialplans[u]) == name;
      assert u !in DeletePlans(t.dialplans, name);
    } else {
      forall u | u in t.dialplans ensures u in DeletePlans(t.dialplans, name) {
        assert IsPublic()(t.dialplans[u]) ==> PlanKey()(t.dialplans[u]) in v.plans;
      }
      assert DeletePlans(t.dialplans, name) == t.dialplans;
    }
  }

  lemma DropPlanAbsent(v: View, name: string)
    requires name !in v.plans
    ensures DropPlan(v, name) == v
  {
    assert v.plans - {name} == v.plans;
  }

  method DropPlanRows(t: Db, ghost v: View, name: string) returns (t': Db, deleted: bool)
    requires WellFormed(t) && Shows(t, v)
    ensures WellFormed(t') && Shows(t', DropPlan(v, name))
    ensures t' == t.(dialplans := t'.dialplans)
    ensures PlansKept(t, t', iset{name})
    ensures deleted <==> name in v.plans
    ensures !deleted ==> t' == t
  {
    hide WellFormed, Shows, OthersKept, PlansKept;
    var rows := DeletePlans(t.dialplans, name);
    DeleteDialplan(t, v, name);
    PlanPresent(t, v, name);
    return t.(dialplans := rows), rows != t.dialplans;
  }

  // ----------------------------------------------------------------- settings

  lemma DirKnown(t: Db, v: View)
    requires Shows(t, v)
    ensures forall u :: u in t.settings && IsVoicemailDir()(t.settings[u]) ==>
      () in v.dir && v.dir[()] == t.settings[u].value
    ensures (forall u :: u in t.settings ==> !IsVoicemailDir()(t.settings[u])) ==> () !in v.dir
  {}

  /** Only the voicemail directory may differ: it is this one, and enabled. */
  ghost predicate DirRowsFit(rows: map<Uuid, SettingRow>, rows': map<Uuid, SettingRow>, dir: string) {
    forall u :: u in rows' && !(u in rows && rows[u] == rows'[u]) ==>
        IsVoicemailDir()(rows'[u]) && rows'[u].value == dir && rows'[u].enabled
  }

  lemma DirRowSame(rows: map<Uuid, SettingRow>, dir: string)
    ensures DirRowsFit(rows, rows, dir)
  {}

  lemma DirRowPut(rows: map<Uuid, SettingRow>, u: Uuid, row: SettingRow)
    requires IsVoicemailDir()(row) && row.enabled
    ensures DirRowsFit(rows, rows[u := row], row.value)
  {}

  lemma PutDirSame(v: View, dir: string)
    ensures PutDir(v, dir) == v <==> () in v.dir && v.dir[()] == dir
  {
    assert () in v.dir && v.dir[()] == dir ==> v.dir[() := dir] == v.dir;
    assert PutDir(v, dir).dir[()] == dir;
  }

  method EnsureDirRow(t: Db, ghost v: View, ghost d: string, dir: string) returns (t': Db, changed: bool)
    requires WellFormed(t) && Shows(t, v)
    ensures WellFormed(t') && Shows(t', PutDir(v, dir)) && OthersKept(t, t', d)
    ensures t' == t.(settings := t'.settings)
    ensures DirRowsFit(t.settings, t'.settings, dir)
    ensures changed <==> PutDir(v, dir) != v
    ensures !changed ==> t' == t
  {
    hide WellFormed, Shows, OthersKept, DirRowsFit, PutDir;
    DirRowSame(t.settings, dir);
    DirKnown(t, v);
    PutDirSame(v, dir);
    OthersKeptRefl(t, d);
    if u :| u in t.settings && IsVoicemailDir()(t.settings[u]) {
      if t.settings[u].value == dir {
        return t, false;
      }
      var row := t.settings[u].(value := dir, enabled := true);
      DirRowPut(t.settings, u, row);
      PutSetting(t, v, u, row, d);
      return t.(settings := t.settings[u := row]), true;
    }
    var u := Fresh(t.settings);
    var row := SettingRow("switch", "voicemail", "dir", dir, true);
    DirRowPut(t.settings, u, row);
    PutSetting(t, v, u, row, d);
    return t.(settings := t.settings[u := row]), true;
  }

  // ------------------------------------------------------------------- queues

  lemma DropQueueAbsent(v: View, d: string, number: string)
    ensures Key(d, number) !in v.queues && FeatureName(CallQueue, d, number) !in v.plans ==>
      DropQueue(v, d, number) == v
    ensures Key(d, number) !in v.queues ==> v.queues - {Key(d, number)} == v.queues
  {
    hide FeatureName;
    if Key(d, number) !in v.queues {
      assert v.queues - {Key(d, number)} == v.queues;
      if FeatureName(CallQueue, d, number) !in v.plans {
        assert v.plans - {FeatureName(CallQueue, d, number)} == v.plans;
      }
    }
  }

  method DropQueueRow(t: Db, ghost v: View, d: string, du: Uuid, number: string) returns (t': Db, found: bool)
    requires WellFormed(t) && Shows(t, v) && OfDomain(t.domains, du, d)
    ensures WellFormed(t') && Shows(t', v.(queues := v.queues - {Key(d, number)}))
    ensures OthersKept(t, t', d) && OtherQueuesKept(t, t', d, number)
    ensures t' == t.(queues := t'.queues, agents := t'.agents, tiers := t'.tiers)
    ensures NoNewOrphans(t.agents, t.tiers, t'.agents, t'.tiers) && NewRowsFit(t, t', d)
    ensures found <==> Key(d, number) in v.queues
    ensures !found ==> t' == t
  {
    hide WellFormed, Shows, OthersKept, OtherQueuesKept, NoNewOrphans, AgentFits, TierFits;
    if q :| q in t.queues && t.queues[q].domain == du && t.queues[q].extension == number {
      QueueKnown(t, v, q, d);
      t' := RemoveQueue(t, v, d, q);
      return t', true;
    }
    QueueUnknown(t, v, du, d, number);
    DropQueueAbsent(v, d, number);
    OthersKeptRefl(t, d);
    OtherQueuesSame(t, t, d, number);
    OrphansSame(t);
    return t, false;
  }

  method DropQueueRows(t: Db, ghost v: View, d: string, number: string) returns (t': Db, deleted: bool)
    requires WellFormed(t) && Shows(t, v)
    ensures WellFormed(t') && Shows(t', DropQueue(v, d, number))
    ensures OthersKept(t, t', d) && OtherQueuesKept(t, t', d, number)
    ensures t'.extensions == t.extensions && PlansKept(t, t', iset{FeatureName(CallQueue, d, number)})
    ensures NoNewOrphans(t.agents, t.tiers, t'.agents, t'.tiers) && NewRowsFit(t, t', d)
    ensures deleted <==> d in v.domains && (Key(d, number) in v.queues || FeatureName(CallQueue, d, number) in v.plans)
    ensures !deleted ==> t' == t
  {
    hide WellFormed, Shows, OthersKept, OtherQueuesKept, NoNewOrphans, FeatureName, PlansKept, AgentFits, TierFits;
    DomainKnown(t, v, d);
    if du :| du in t.domains && t.domains[du] == d {
      var name := FeatureName(CallQueue, d, number);
      ghost var v1 := v.(queues := v.queues - {Key(d, number)});
      var t1, found := DropQueueRow(t, v, d, du, number);
      var gone;
      t', gone := DropPlanRows(t1, v1, name);
      deleted := found || gone;
      SamePlansKept(t, t1, iset{name});
      PlansKeptTrans(t, t1, t', iset{name}, iset{name});
      OnlyPlansKept(t1, t', d);
      OthersKeptTrans(t, t1, t', d);
      OtherQueuesSame(t1, t', d, number);
      OtherQueuesTrans(t, t1, t', d, number);
    } else {
      OthersKeptRefl(t, d);
      SamePlansKept(t, t, iset{FeatureName(CallQueue, d, number)});
      OtherQueuesSame(t, t, d, number);
      OrphansSame(t);
      return t, false;
    }
  }

  lemma OrphansSame(t: Db)
    ensures NoNewOrphans(t.agents, t.tiers, t.agents, t.tiers)
  {}

  // --------------------------------------------------------------- the numbers

  function NumbersIn<V>(m: map<Key, V>, d: string): set<string> {
    set k | k in m && k.dom == d :: k.number
  }

  lemma QueueNumbers(t: Db, v: View, d: string)
    requires WellFormed(t) && Shows(t, v)
    ensures (set u | u in t.queues && OfDomain(t.domains, t.queues[u].domain, d) ::
        t.queues[u].extension) == NumbersIn(v.queues, d)
  {
    hide UniqueKey, VoicemailsOk, ExtensionsOk, AgentsOk, TiersOk, DomainsOk, AgentsOf;
    var found := set u | u in t.queues && OfDomain(t.domains, t.queues[u].domain, d) :: t.queues[u].extension;
    forall n | n in NumbersIn(v.queues, d) ensures n in found {
      assert Key(d, n) in v.queues;
      var u :| u in t.queues && All()(t.queues[u]) && QueueKey(t.domains)(t.queues[u]) == Key(d, n);
      assert t.queues[u].extension == n;
    }
    forall n | n in found ensures n in NumbersIn(v.queues, d) {
      var u :| u in t.queues && OfDomain(t.domains, t.queues[u].domain, d) && t.queues[u].extension == n;
      assert QueueKey(t.domains)(t.queues[u]) == Key(d, n);
    }
  }

  lemma ManagedNames(t: Db, v: View, d: string)
    requires Shows(t, v)
    ensures (set u | u in t.dialplans && t.dialplans[u].isPublic
        && t.dialplans[u].tag == FeatureTag(d) :: t.dialplans[u].name) == ManagedIn(v, d)
  {
    var found := set u | u in t.dialplans && t.dialplans[u].isPublic
        && t.dialplans[u].tag == FeatureTag(d) :: t.dialplans[u].name;
    forall n | n in ManagedIn(v, d) ensures n in found {
      var u :| u in t.dialplans && IsPublic()(t.dialplans[u]) && PlanKey()(t.dialplans[u]) == n;
      assert PlanVal()(u, t.dialplans[u]) == v.plans[n];
    }
    forall n | n in found ensures n in ManagedIn(v, d) {
      var u :| u in t.dialplans && t.dialplans[u].isPublic && t.dialplans[u].tag == FeatureTag(d)
          && t.dialplans[u].name == n;
      assert IsPublic()(t.dialplans[u]) && PlanKey()(t.dialplans[u]) == n;
    }
  }

  function ManagedIn(v: View, d: string): set<string> {
    set name | name in v.plans && v.plans[name].tag == FeatureTag(d)
  }
}

/** The statements of the client's transactions, each on a working copy of the tables. */
module Steps {
  import opened Names
  import opened Sets
  import opened Indexed
  import opened Tables

  // ------------------------------------------------------- effects on the view

  function WithDomain(v: View, d: string): View {
    v.(domains := v.domains + {d})
  }

  function PutExt(v: View, d: string, number: string, display: string): View {
    WithDomain(v, d).(exts := v.exts[Key(d, number) := ExtNames(display, display, display)])
  }

  function DropExt(v: View, d: string, number: string): View {
    v.(exts := v.exts - {Key(d, number)})
  }

  /** An existing box is left alone. */
  function PutBox(v: View, d: string, number: string, password: string): View {
    WithDomain(v, d).(boxes := if Key(d, number) in v.boxes then v.boxes else v.boxes[Key(d, number) := password])
  }

  function DropBox(v: View, d: string, number: string): View {
    v.(boxes := v.boxes - {Key(d, number)})
  }

  /** An existing row keeps its tag: the update writes only the XML and the order. */
  function PutPlan(v: View, d: string, name: string, xml: Xml, tag: Tag): View {
    WithDomain(v, d).(plans := v.plans[name := Plan(xml, if name in v.plans then v.plans[name].tag else tag)])
  }

  function DropPlan(v: View, name: string): View {
    v.(plans := v.plans - {name})
  }

  function PutDir(v: View, dir: string): View {
    v.(dir := v.dir[() := dir])
  }

  // ------------------------------------------------------------------ domains

  lemma DomainKnown(t: Db, v: View, d: string)
    requires Shows(t, v)
    ensures d in v.domains <==> exists u :: u in t.domains && t.domains[u] == d
    ensures d in v.domains ==> WithDomain(v, d) == v
  {
    hide IsIndex;
    if d in v.domains {
      assert v.domains + {d} == v.domains;
    }
  }

  /** Select the domain row, or insert one. */
  method EnsureDomainRow(t: Db, ghost v: View, d: string) returns (t': Db, du: Uuid)
    requires WellFormed(t) && Shows(t, v)
    ensures WellFormed(t') && Shows(t', WithDomain(v, d)) && OthersKept(t, t', d)
    ensures OfDomain(t'.domains, du, d) && Extends(t.domains, t'.domains)
    ensures t' == t.(domains := t'.domains)
    ensures d in v.domains ==> t' == t
  {
    hide WellFormed, Shows, OthersKept, WithDomain;
    DomainKnown(t, v, d);
    if u :| u in t.domains && t.domains[u] == d {
      OthersKeptRefl(t, d);
      return t, u;
    }
    du := Fresh(t.domains);
    t' := t.(domains := t.domains[du := d]);
    AddDomain(t, v, du, d);
  }

  lemma AddDomain(t: Db, v: View, u: Uuid, d: string)
    requires WellFormed(t) && Shows(t, v) && u !in t.domains && d !in v.domains
    ensures var t' := t.(domains := t.domains[u := d]);
      WellFormed(t') && Shows(t', WithDomain(v, d)) && OthersKept(t, t', d)
  {
    AddDomainOk(t, v, u, d);
    AddDomainShows(t, v, u, d);
    SameRowsKept(t, t.domains[u := d], d);
    hide RowsKept, WellFormed, Shows;
  }

  predicate Extends(domains: map<Uuid, string>, domains': map<Uuid, string>) {
    forall u :: u in domains ==> u in domains' && domains'[u] == domains[u]
  }

  lemma AddDomainName(t: Db, v: View, u: Uuid, d: string)
    requires Shows(t, v) && u !in t.domains && d !in v.domains
    ensures Extends(t.domains, t.domains[u := d])
    ensures t.domains[u := d].Values == v.domains + {d}
  {
    hide IsIndex;
    var domains := t.domains[u := d];
    assert domains[u] == d;
    forall x | x in v.domains ensures x in domains.Values {
      var w :| w in t.domains && t.domains[w] == x;
      assert domains[w] == x;
    }
  }

  lemma AddDomainOk(t: Db, v: View, u: Uuid, d: string)
    requires WellFormed(t) && Shows(t, v) && u !in t.domains && d !in v.domains
    ensures WellFormed(t.(domains := t.domains[u := d]))
  {
    hide UniqueKey, IsIndex;
    var domains := t.domains[u := d];
    assert DomainsOk(domains) by {
      assert forall w :: w in t.domains ==> t.domains[w] in t.domains.Values;
    }
    UniqueSame(t.extensions, All(), ExtKey(t.domains), ExtKey(domains));
    UniqueSame(t.voicemails, All(), BoxKey(t.domains), BoxKey(domains));
    UniqueSame(t.queues, All(), QueueKey(t.domains), QueueKey(domains));
    UniqueSame(t.agents, All(), AgentKey(t.domains), AgentKey(domains));
  }

  lemma AddDomainShows(t: Db, v: View, u: Uuid, d: string)
    requires WellFormed(t) && Shows(t, v) && u !in t.domains && d !in v.domains
    ensures Shows(t.(domains := t.domains[u := d]), WithDomain(v, d))
  {
    hide UniqueKey, IsIndex, DomainsOk, AgentsOk, TiersOk;
    var domains := t.domains[u := d];
    AddDomainName(t, v, u, d);
    IndexNewKey(t.extensions, All(), ExtKey(t.domains), ExtVal(), ExtKey(domains), v.exts);
    IndexNewKey(t.voicemails, All(), BoxKey(t.domains), BoxVal(), BoxKey(domains), v.boxes);
    IndexNewKey(t.queues, All(), QueueKey(t.domains), QueueVal(t.tiers), QueueKey(domains), v.queues);
  }

  // --------------------------------------------------------------- extensions

  lemma PutExtension(t: Db, v: View, u: Uuid, row: ExtensionRow, d: string)
    requires WellFormed(t) && Shows(t, v) && OfDomain(t.domains, row.domain, d)
    requires Takes(t.extensions, All(), ExtKey(t.domains), u, row)
    ensures var t' := t.(extensions := t.extensions[u := row]);
      && WellFormed(t') && OthersKept(t, t', d)
      && Shows(t', v.(exts := v.exts[Key(d, row.number) := ExtVal()(u, row)]))
  {
    hide UniqueKey, IsIndex, RowsKept, DomainsOk, CallCenterOk, VoicemailsOk;
    UniquePut(t.extensions, All(), ExtKey(t.domains), u, row);
    IndexPut(t.extensions, All(), ExtKey(t.domains), ExtVal(), v.exts, u, row);
    ExtKeyOfDomain(t, d);
    RowsKeptPut(t.extensions, u, row, ExtMine(t.domains, d));
    SameRowsKept(t, t.domains, d);
  }

  // Under unique domain names, a key of domain `d` is a row of that domain.
  lemma ExtKeyOfDomain(t: Db, d: string)
    requires WellFormed(t)
    ensures forall u {:trigger t.extensions[u]} :: u in t.extensions ==>
      (ExtKey(t.domains)(t.extensions[u]).dom == d <==> OfDomain(t.domains, t.extensions[u].domain, d))
  {
    hide UniqueKey, CallCenterOk, VoicemailsOk;
  }

  function DeleteExtensions(rows: map<Uuid, ExtensionRow>, du: Uuid, number: string): map<Uuid, ExtensionRow> {
    map u | u in rows && !(rows[u].domain == du && rows[u].number == number) :: rows[u]
  }

  lemma DeleteExtension(t: Db, v: View, du: Uuid, d: string, number: string)
    requires WellFormed(t) && Shows(t, v) && OfDomain(t.domains, du, d)
    ensures var t' := t.(extensions := DeleteExtensions(t.extensions, du, number));
      WellFormed(t') && OthersKept(t, t', d) && Shows(t', DropExt(v, d, number))
  {
    hide UniqueKey, IsIndex, RowsKept, CallCenterOk, VoicemailsOk;
    var rows, rows' := t.extensions, DeleteExtensions(t.extensions, du, number);
    assert Without(rows, All(), ExtKey(t.domains), Key(d, number), rows');
    hide DomainsOk;
    UniqueDelete(rows, All(), ExtKey(t.domains), Key(d, number), rows');
    IndexDelete(rows, All(), ExtKey(t.domains), ExtVal(), v.exts, Key(d, number), rows');
    RowsKeptDelete(rows, rows', ExtMine(t.domains, d));
    SameRowsKept(t, t.domains, d);
  }

  // --------------------------------------------------------------- voicemails

  lemma PutVoicemail(t: Db, v: View, u: Uuid, row: VoicemailRow, d: string)
    requires WellFormed(t) && Shows(t, v) && OfDomain(t.domains, row.domain, d)
    requires u !in t.voicemails && Takes(t.voicemails, All(), BoxKey(t.domains), u, row)
    ensures var t' := t.(voicemails := t.voicemails[u := row]);
      && WellFormed(t') && OthersKept(t, t', d)
      && Shows(t', v.(boxes := v.boxes[Key(d, row.id) := row.password]))
  {
    hide UniqueKey, IsIndex, RowsKept, DomainsOk, CallCenterOk, ExtensionsOk;
    UniquePut(t.voicemails, All(), BoxKey(t.domains), u, row);
    IndexPut(t.voicemails, All(), BoxKey(t.domains), BoxVal(), v.boxes, u, row);
    RowsKeptPut(t.voicemails, u, row, BoxMine(t.domains, d));
    SameRowsKept(t, t.domains, d);
  }

  function DeleteVoicemails(rows: map<Uuid, VoicemailRow>, du: Uuid, number: string): map<Uuid, VoicemailRow> {
    map u | u in rows && !(rows[u].domain == du && rows[u].id == number) :: rows[u]
  }

  lemma DeleteVoicemail(t: Db, v: View, du: Uuid, d: string, number: string)
    requires WellFormed(t) && Shows(t, v) && OfDomain(t.domains, du, d)
    ensures var t' := t.(voicemails := DeleteVoicemails(t.voicemails, du, number));
      WellFormed(t') && OthersKept(t, t', d) && Shows(t', DropBox(v, d, number))
  {
    hide UniqueKey, IsIndex, RowsKept, CallCenterOk, ExtensionsOk;
    var rows, rows' := t.voicemails, DeleteVoicemails(t.voicemails, du, number);
    assert Without(rows, All(), BoxKey(t.domains), Key(d, number), rows');
    hide DomainsOk;
    UniqueDelete(rows, All(), BoxKey(t.domains), Key(d, number), rows');
    IndexDelete(rows, All(), BoxKey(t.domains), BoxVal(), v.boxes, Key(d, number), rows');
    RowsKeptDelete(rows, rows', BoxMine(t.domains, d));
    SameRowsKept(t, t.domains, d);
  }

  // ---------------------------------------------------------------- dialplans

  lemma PutDialplan(t: Db, v: View, u: Uuid, row: DialplanRow, d: string)
    requires WellFormed(t) && Shows(t, v)
    requires Takes(t.dialplans, IsPublic(), PlanKey(), u, row)
    ensures var t' := t.(dialplans := t.dialplans[u := row]);
      && WellFormed(t') && OthersKept(t, t', d) && PlansKept(t, t', iset{row.name})
      && Shows(t', v.(plans := v.plans[row.name := Plan(row.xml, row.tag)]))
  {
    hide UniqueKey, IsIndex, RowsKept, DomainsOk, CallCenterOk, ExtensionsOk, VoicemailsOk;
    UniquePut(t.dialplans, IsPublic(), PlanKey(), u, row);
    IndexPut(t.dialplans, IsPublic(), PlanKey(), PlanVal(), v.plans, u, row);
    RowsKeptPut(t.dialplans, u, row, PlanNamed(iset{row.name}));
    SameRowsKept(t, t.domains, d);
  }

  lemma PlanKnown(t: Db, v: View, u: Uuid)
    requires Shows(t, v) && u in t.dialplans && t.dialplans[u].isPublic
    ensures var row := t.dialplans[u]; row.name in v.plans && v.plans[row.name] == Plan(row.xml, row.tag)
  {}

  lemma PlanUnknown(t: Db, v: View, name: string)
    requires Shows(t, v) && forall u :: u in t.dialplans ==> !(t.dialplans[u].isPublic && t.dialplans[u].name == name)
    ensures name !in v.plans
  {}

  lemma PutPlanSame(v: View, d: string, name: string, xml: Xml, tag: Tag)
    requires d in v.domains
    ensures PutPlan(v, d, name, xml, tag) == v <==> name in v.plans && v.plans[name].xml == xml
  {
    assert v.domains + {d} == v.domains;
    if name in v.plans && v.plans[name].xml == xml {
      assert v.plans[name := v.plans[name]] == v.plans;
    } else {
      assert PutPlan(v, d, name, xml, tag).plans[name].xml == xml;
    }
  }

  lemma UpdatePlan(t: Db, v: View, d: string, u: Uuid, xml: Xml, order: int, tag: Tag)
    requires WellFormed(t) && Shows(t, v) && d in v.domains && u in t.dialplans
    requires t.dialplans[u].isPublic
    ensures var t' := t.(dialplans := t.dialplans[u := t.dialplans[u].(xml := xml, order := order)]);
      && WellFormed(t') && OthersKept(t, t', d) && PlansKept(t, t', iset{t.dialplans[u].name})
      && Shows(t', PutPlan(v, d, t.dialplans[u].name, xml, tag))
  {
    DomainKnown(t, v, d);
    PlanKnown(t, v, u);
    PutDialplan(t, v, u, t.dialplans[u].(xml := xml, order := order), d);
    hide WellFormed, Shows, OthersKept, PlansKept, WithDomain;
  }

  lemma InsertPlan(t: Db, v: View, d: string, u: Uuid, row: DialplanRow)
    requires WellFormed(t) && Shows(t, v) && d in v.domains && u !in t.dialplans
    requires row.isPublic
    requires forall u :: u in t.dialplans ==> !(t.dialplans[u].isPublic && t.dialplans[u].name == row.name)
    ensures var t' := t.(dialplans := t.dialplans[u := row]);
      && WellFormed(t') && OthersKept(t, t', d) && PlansKept(t, t', iset{row.name})
      && Shows(t', PutPlan(v, d, row.name, row.xml, row.tag))
    ensures row.name !in v.plans
  {
    DomainKnown(t, v, d);
    PlanUnknown(t, v, row.name);
    PutDialplan(t, v, u, row, d);
    hide WellFormed, Shows, OthersKept, PlansKept, WithDomain;
  }

  /** Only the public row of this name may differ: it has this order, and this number if it is new. */
  ghost predicate PlanRowFits(t: Db, t': Db, name: string, number: string, order: int) {
    forall u :: u in t'.dialplans && !(u in t.dialplans && t.dialplans[u] == t'.dialplans[u]) ==>
        var row := t'.dialplans[u];
        row.isPublic && row.name == name && row.order == order
            && row.number == if u in t.dialplans then t.dialplans[u].number else number
  }

  /** The shared upsert of a public dialplan row; an existing row keeps its number and tag. */
  method EnsureDialplanRow(t: Db, ghost v: View, ghost d: string, name: string, number: string, order: int, xml: Xml,
      tag: Tag)
    returns (t': Db, changed: bool)
    requires WellFormed(t) && Shows(t, v) && d in v.domains
    ensures WellFormed(t') && OthersKept(t, t', d) && Shows(t', PutPlan(v, d, name, xml, tag))
    ensures PlansKept(t, t', iset{name})
    ensures t' == t.(dialplans := t'.dialplans) && PlanRowFits(t, t', name, number, order)
    ensures changed <==> PutPlan(v, d, name, xml, tag) != v
    ensures !changed ==> t' == t
  {
    hide WellFormed, Shows, OthersKept, PlansKept, PutPlan;
    PutPlanSame(v, d, name, xml, tag);
    if u :| u in t.dialplans && t.dialplans[u].isPublic && t.dialplans[u].name == name {
      PlanKnown(t, v, u);
      if t.dialplans[u].xml == xml {
        OthersKeptRefl(t, d);
        SamePlansKept(t, t, iset{name});
        return t, false;
      }
      t' := t.(dialplans := t.dialplans[u := t.dialplans[u].(xml := xml, order := order)]);
      UpdatePlan(t, v, d, u, xml, order, tag);
      return t', true;
    }
    var u := Fresh(t.dialplans);
    t' := t.(dialplans := t.dialplans[u := DialplanRow(name, true, number, order, xml, tag)]);
    InsertPlan(t, v, d, u, DialplanRow(name, true, number, order, xml, tag));
    return t', true;
  }

  lemma OnlyPlansKept(t: Db, t': Db, d: string)
    requires t' == t.(dialplans := t'.dialplans)
    ensures OthersKept(t, t', d)
  {
    SameRowsKept(t, t.domains, d);
    hide RowsKept;
  }

  function DeletePlans(rows: map<Uuid, DialplanRow>, name: string): map<Uuid, DialplanRow> {
    map u | u in rows && !(rows[u].name == name && rows[u].isPublic) :: rows[u]
  }

  lemma DeleteDialplan(t: Db, v: View, name: string)
    requires WellFormed(t) && Shows(t, v)
    ensures var t' := t.(dialplans := DeletePlans(t.dialplans, name));
      && WellFormed(t') && Shows(t', DropPlan(v, name)) && PlansKept(t, t', iset{name})
  {
    hide UniqueKey, IsIndex, CallCenterOk, ExtensionsOk, VoicemailsOk, DomainsOk;
    var rows, rows' := t.dialplans, DeletePlans(t.dialplans, name);
    assert Without(rows, IsPublic(), PlanKey(), name, rows');
    UniqueDelete(rows, IsPublic(), PlanKey(), name, rows');
    IndexDelete(rows, IsPublic(), PlanKey(), PlanVal(), v.plans, name, rows');
    RowsKeptDelete(rows, rows', PlanNamed(iset{name}));
  }

  // ----------------------------------------------------------------- settings

  lemma PutSetting(t: Db, v: View, u: Uuid, row: SettingRow, d: string)
    requires WellFormed(t) && Shows(t, v) && Takes(t.settings, IsVoicemailDir(), DirKey(), u, row)
    ensures var t' := t.(settings := t.settings[u := row]);
      WellFormed(t') && OthersKept(t, t', d) && Shows(t', PutDir(v, row.value))
  {
    hide UniqueKey, IsIndex, RowsKept, DomainsOk, CallCenterOk, ExtensionsOk, VoicemailsOk;
    UniquePut(t.settings, IsVoicemailDir(), DirKey(), u, row);
    IndexPut(t.settings, IsVoicemailDir(), DirKey(), DirVal(), v.dir, u, row);
    RowsKeptPut(t.settings, u, row, IsVoicemailDir());
    SameRowsKept(t, t.domains, d);
  }
}

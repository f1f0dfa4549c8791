/** The FusionPBX client: each method is one transaction that commits or reports the
    database unavailable (app/services/fusionpbx/client.py:271-1419). */
module Client {
  import opened Names
  import opened Orders
  import opened Indexed
  import opened Tables
  import opened Steps
  import opened CallCenter
  import opened Transactions
  import opened Dialplans
  import IvrText
  import Runtime

  const SWITCH_VOICEMAIL_DIR := "/var/lib/freeswitch/storage/voicemail"

  // ------------------------------------------------------------- small helpers

  /** The first occurrence of each entry, in order. */
  function Dedup(s: seq<string>): (r: seq<string>)
    ensures Distinct(r) && Elems(r) == Elems(s)
  {
    if s == [] then []
    else
      var init := Dedup(s[..|s| - 1]);
      var last := s[|s| - 1];
      assert s == s[..|s| - 1] + [last];
      if last in init then init else
      assert Elems(init + [last]) == Elems(init) + {last};
      init + [last]
  }

  /** Extension and queue numbers are dial tokens, so that they can be passed back to the client. */
  ghost predicate NumbersOk(v: View) {
    && (forall k :: k in v.exts ==> ValidToken(k.number))
    && (forall k :: k in v.queues ==> ValidToken(k.number))
  }

  function Bumped(changed: bool): nat {
    if changed then 1 else 0
  }

  datatype ExtensionInfo = ExtensionInfo(number: string, uuid: Uuid, secret: nat)

  datatype Status = Rejected | Down | Done

  function StatusOf<T>(r: Result<T>): Status {
    match r
    case Ok(_) => Done
    case Unavailable => Down
    case BadRequest => Rejected
  }

  class FusionpbxClient {
    var db: Db
    var reloads: nat
    var commands: seq<Command>
    var calls: nat
    /** Which calls, counted from the start, find the database unreachable. */
    const outage: nat -> bool
    ghost var view: View

    ghost predicate Valid()
      reads this
    {
      WellFormed(db) && Shows(db, view) && NumbersOk(view)
    }

    twostate predicate Untouched()
      reads this
    {
      db == old(db) && view == old(view) && reloads == old(reloads) && commands == old(commands)
    }

    /** Bad arguments reject the call before it reaches the database; otherwise it uses up one
        slot of the outage schedule, and nothing is written unless it succeeds. */
    twostate predicate Guarded(status: Status, valid: bool)
      reads this
    {
      && status == (if !valid then Rejected else if outage(old(calls)) then Down else Done)
      && calls == old(calls) + Bumped(valid)
      && (status != Done ==> Untouched())
    }

    /** The call turned the view into `w`, kept the rows of all other domains and the dialplan
        rows of all other names, and left the tables alone when there was nothing to change. */
    twostate predicate Wrote(d: string, w: View, names: iset<string>)
      reads this
    {
      view == w && OthersKept(old(db), db, d) && PlansKept(old(db), db, names) && (w == old(view) ==> db == old(db))
    }

    constructor (db: Db, ghost view: View, outage: nat -> bool)
      requires WellFormed(db) && Shows(db, view) && NumbersOk(view)
      ensures Valid() && this.db == db && this.view == view && this.outage == outage
      ensures reloads == 0 && commands == [] && calls == 0
    {
      this.db, this.view, this.outage := db, view, outage;
      reloads, commands, calls := 0, [], 0;
    }

    /** Count the call and find out whether the database can be reached. */
    method Begin() returns (up: bool)
      modifies this`calls
      ensures up == !outage(old(calls)) && calls == old(calls) + 1
    {
      up := !outage(calls);
      calls := calls + 1;
    }

    // -------------------------------------------------------------- extensions

    method ListExtensions(d: string) returns (r: Result<set<string>>)
      requires Valid()
      modifies this`calls
      ensures Guarded(StatusOf(r), ValidDomain(d)) && Untouched() && Valid()
      ensures r.Ok? ==> r.value == NumbersIn(view.exts, d)
    {
      hide WellFormed, Shows, NumbersOk, ValidDomain, NumbersIn;
      if !ValidDomain(d) { return BadRequest; }
      var up := Begin();
      if !up { return Unavailable; }
      ExtensionNumbers(db, view, d);
      return Ok(set u | u in db.extensions
          && OfDomain(db.domains, db.extensions[u].domain, d) :: db.extensions[u].number);
    }

    method CreateExtension(d: string, number: string, display: string) returns (r: Result<ExtensionInfo>)
      requires Valid()
      modifies this
      ensures Guarded(StatusOf(r), ValidDomain(d) && ValidToken(number)) && Valid()
      ensures r.Ok? ==> Wrote(d, PutExt(old(view), d, number, display), iset{})
      ensures r.Ok? ==> reloads == old(reloads) + Bumped(view.exts != old(view.exts)) && commands == old(commands)
      ensures r.Ok? ==> IsRowOf(db, r.value.uuid, d, number, r.value.secret)
      ensures r.Ok? ==> Key(d, number) in view.exts && AllNamed(view.exts[Key(d, number)], display)
      ensures SecretsKept(old(db.extensions), db.extensions, AnyRow())
    {
      hide WellFormed, Shows, OthersKept, PlansKept, ValidDomain, ValidToken, NumbersOk, SecretsKept, PutExt, IsRowOf;
      hide AllNamed;
      SecretsSame(db.extensions);
      if !ValidDomain(d) || !ValidToken(number) { return BadRequest; }
      var up := Begin();
      if !up { return Unavailable; }
      var t, u, secret, wrote := EnsureExtensionRow(db, view, d, number, display);
      ExtNumbersOk(view, d, number, display);
      PutExtNames(view, d, number, display);
      SamePlansKept(db, t, iset{});
      db, view := t, PutExt(view, d, number, display);
      if wrote {
        reloads := reloads + 1;
      }
      return Ok(ExtensionInfo(number, u, secret));
    }

    method DeleteExtension(d: string, number: string) returns (r: Result<bool>)
      requires Valid()
      modifies this
      ensures Guarded(StatusOf(r), ValidDomain(d) && ValidToken(number)) && Valid()
      ensures r.Ok? ==>
        Wrote(d, DropExt(old(view), d, number), iset{}) && (r.value <==> Key(d, number) in old(view.exts))
      ensures r.Ok? ==> reloads == old(reloads) + Bumped(r.value) && commands == old(commands)
      ensures SecretsKept(old(db.extensions), db.extensions, NotNumber(old(db.domains), d, number))
    {
      hide WellFormed, Shows, OthersKept, PlansKept, ValidDomain, ValidToken, NumbersOk, SecretsKept, DropExt;
      SecretsSome(db.extensions, NotNumber(db.domains, d, number));
      if !ValidDomain(d) || !ValidToken(number) { return BadRequest; }
      var up := Begin();
      if !up { return Unavailable; }
      var t, deleted := DropExtensionRows(db, view, d, number);
      DropExtNumbersOk(view, d, number);
      SamePlansKept(db, t, iset{});
      db, view := t, DropExt(view, d, number);
      if deleted {
        reloads := reloads + 1;
      }
      return Ok(deleted);
    }

    // -------------------------------------------------------------- voicemails

    method EnsureVoicemail(d: string, number: string, password: string) returns (r: Result<bool>)
      requires Valid()
      modifies this
      ensures Guarded(StatusOf(r), ValidDomain(d) && ValidToken(number)) && Valid()
      ensures r.Ok? ==> Wrote(d, PutBox(old(view), d, number, if password == "" then number else password), iset{})
      ensures r.Ok? ==> (r.value <==> Key(d, number) !in old(view.boxes))
      ensures r.Ok? ==> reloads == old(reloads) + Bumped(r.value) && commands == old(commands)
      ensures db.extensions == old(db.extensions)
    {
      hide WellFormed, Shows, OthersKept, PlansKept, ValidDomain, ValidToken, NumbersOk;
      if !ValidDomain(d) || !ValidToken(number) { return BadRequest; }
      var up := Begin();
      if !up { return Unavailable; }
      var pwd := if password == "" then number else password;
      var t, wrote := EnsureVoicemailRow(db, view, d, number, pwd);
      SameNumbersOk(view, PutBox(view, d, number, pwd));
      SamePlansKept(db, t, iset{});
      db, view := t, PutBox(view, d, number, pwd);
      if wrote {
        reloads := reloads + 1;
      }
      return Ok(wrote);
    }

    method DeleteVoicemail(d: string, number: string) returns (r: Result<bool>)
      requires Valid()
      modifies this
      ensures Guarded(StatusOf(r), ValidDomain(d) && ValidToken(number)) && Valid()
      ensures r.Ok? ==>
        Wrote(d, DropBox(old(view), d, number), iset{}) && (r.value <==> Key(d, number) in old(view.boxes))
      ensures r.Ok? ==> reloads == old(reloads) + Bumped(r.value) && commands == old(commands)
      ensures db.extensions == old(db.extensions)
    {
      hide WellFormed, Shows, OthersKept, PlansKept, ValidDomain, ValidToken, NumbersOk;
      if !ValidDomain(d) || !ValidToken(number) { return BadRequest; }
      var up := Begin();
      if !up { return Unavailable; }
      var t, deleted := DropVoicemailRows(db, view, d, number);
      SameNumbersOk(view, DropBox(view, d, number));
      SamePlansKept(db, t, iset{});
      db, view := t, DropBox(view, d, number);
      if deleted {
        reloads := reloads + 1;
      }
      return Ok(deleted);
    }

    // --------------------------------------------------------------- dialplans

    /** The transaction shared by conferences, ring groups, IVRs and the routing row. */
    method InstallPlan(d: string, name: string, number: string, order: int, xml: Xml, tag: Tag,
        valid: bool) returns (r: Result<bool>)
      requires Valid()
      modifies this
      ensures Guarded(StatusOf(r), valid) && Valid()
      ensures r.Ok? ==>
        Wrote(d, PutPlan(old(view), d, name, xml, tag), iset{name}) && (r.value <==> view.plans != old(view.plans))
      ensures r.Ok? ==> reloads == old(reloads) + Bumped(r.value) && commands == old(commands)
      ensures db.extensions == old(db.extensions)
      ensures r.Ok? ==> PlanRowFits(old(db), db, name, number, order)
    {
      hide WellFormed, Shows, OthersKept, PlansKept, NumbersOk, PlanRowFits;
      if !valid { return BadRequest; }
      var up := Begin();
      if !up { return Unavailable; }
      var t, changed := EnsurePlan(db, view, d, name, number, order, xml, tag);
      SameNumbersOk(view, PutPlan(view, d, name, xml, tag));
      hide PutPlan;
      db, view := t, PutPlan(view, d, name, xml, tag);
      if changed {
        reloads := reloads + 1;
      }
      return Ok(changed);
    }

    method CreateConference(d: string, number: string) returns (r: Result<bool>)
      requires Valid()
      modifies this
      ensures Guarded(StatusOf(r), ValidDomain(d) && ValidToken(number)) && Valid()
      ensures r.Ok? ==>
        Wrote(d, PutPlan(old(view), d, FeatureName(Conference, d, number), ConferencePlan(d, number), FeatureTag(d)),
              iset{FeatureName(Conference, d, number)})
      ensures r.Ok? ==> PlanRowFits(old(db), db, FeatureName(Conference, d, number), number, 55)
      ensures r.Ok? ==> RoomAt(view, d, number)
      ensures r.Ok? ==> reloads == old(reloads) + Bumped(view.plans != old(view.plans)) && commands == old(commands)
      ensures db.extensions == old(db.extensions)
    {
      hide WellFormed, Shows, OthersKept, PlansKept, NumbersOk, FeatureName, ValidDomain, ConfRoom, PlanRowFits;
      hide ValidToken;
      r := InstallPlan(d, FeatureName(Conference, d, number), number, 55, ConferencePlan(d, number), FeatureTag(d),
                       ValidDomain(d) && ValidToken(number));
    }

    method CreateRingGroup(d: string, number: string, members: seq<string>, strategy: string,
        timeout: int) returns (r: Result<bool>)
      requires Valid()
      modifies this
      ensures Guarded(StatusOf(r), ValidDomain(d) && ValidToken(number) && members != [] && ValidTokens(members))
      ensures Valid()
      ensures r.Ok? ==>
        Wrote(d, PutPlan(old(view), d, FeatureName(RingGroup, d, number),
                         RingGroupPlan(d, number, members, strategy, timeout), FeatureTag(d)),
              iset{FeatureName(RingGroup, d, number)})
      ensures r.Ok? ==> PlanRowFits(old(db), db, FeatureName(RingGroup, d, number), number, 52)
      ensures r.Ok? ==> RingAt(view, d, number, members, strategy, timeout)
      ensures r.Ok? ==> reloads == old(reloads) + Bumped(view.plans != old(view.plans)) && commands == old(commands)
      ensures db.extensions == old(db.extensions)
    {
      hide WellFormed, Shows, OthersKept, PlansKept, NumbersOk, RingGroupPlan, FeatureName, ValidDomain, SaysRing;
      hide ValidToken, ValidTokens, PlanRowFits;
      if ValidDomain(d) && members != [] && ValidTokens(members) {
        RingSays(d, number, members, strategy, timeout);
      }
      r := InstallPlan(d, FeatureName(RingGroup, d, number), number, 52,
          RingGroupPlan(d, number, members, strategy, timeout), FeatureTag(d),
                       ValidDomain(d) && ValidToken(number) && members != [] && ValidTokens(members));
    }

    method CreateIvr(d: string, number: string, options: map<string, string>,
        greeting: string) returns (r: Result<bool>)
      requires Valid()
      modifies this
      ensures Guarded(StatusOf(r), ValidDomain(d) && ValidToken(number) && IvrText.ValidOptions(options)) && Valid()
      ensures r.Ok? ==>
        Wrote(d, PutPlan(old(view), d, FeatureName(Ivr, d, number),
                         IvrPlan(d, number, options, greeting), FeatureTag(d)),
              iset{FeatureName(Ivr, d, number)})
      ensures r.Ok? ==> PlanRowFits(old(db), db, FeatureName(Ivr, d, number), number, 54)
      ensures r.Ok? ==> IvrAt(view, d, number, options, greeting)
      ensures r.Ok? ==> reloads == old(reloads) + Bumped(view.plans != old(view.plans)) && commands == old(commands)
      ensures db.extensions == old(db.extensions)
    {
      hide WellFormed, Shows, OthersKept, PlansKept, NumbersOk, FeatureName, ValidDomain, ValidToken, SaysIvr;
      hide PlanRowFits;
      hide IvrText.ValidOptions, IvrText.NestAll, IvrText.Escape, IvrText.SortedItems;
      if !IvrText.ValidOptions(options) { return BadRequest; }
      IvrText.SortedNonEmpty(options);
      var items := IvrText.SortedItems(options);
      var target := IvrText.BuildTarget(items);
      IvrText.CompiledReadsBack(options);
      var xml := IvrXml(FeatureName(Ivr, d, number), d, number, IvrText.Escape(greeting), IvrText.Digits(items),
        IvrText.Escape(target));
      assert xml == IvrPlan(d, number, options, greeting);
      hide IvrPlan;
      IvrSays(d, number, options, greeting);
      r := InstallPlan(d, FeatureName(Ivr, d, number), number, 54, xml, FeatureTag(d),
        ValidDomain(d) && ValidToken(number));
    }

    method EnsureRouting(d: string, recording: bool) returns (r: Result<bool>)
      requires Valid()
      modifies this
      ensures Guarded(StatusOf(r), ValidDomain(d)) && Valid()
      ensures r.Ok? ==>
        Wrote(d, PutPlan(old(view), d, ROUTING_NAME, RoutingXml(recording), RoutingTag), iset{ROUTING_NAME})
      ensures r.Ok? ==> reloads == old(reloads) + Bumped(view.plans != old(view.plans)) && commands == old(commands)
      ensures db.extensions == old(db.extensions)
      ensures r.Ok? ==> PlanRowFits(old(db), db, ROUTING_NAME, "", 50)
    {
      hide PlanRowFits, WellFormed, Shows, OthersKept, PlansKept, NumbersOk, PutPlan, ValidDomain;
      r := InstallPlan(d, ROUTING_NAME, "", 50, RoutingXml(recording), RoutingTag, ValidDomain(d));
    }

    method DeleteDialplan(name: string) returns (r: Result<bool>)
      requires Valid()
      modifies this
      ensures Guarded(StatusOf(r), true) && Valid()
      ensures r.Ok? ==> view == DropPlan(old(view), name)
      ensures r.Ok? ==> db == old(db).(dialplans := db.dialplans) && PlansKept(old(db), db, iset{name})
      ensures r.Ok? ==> (r.value <==> name in old(view.plans)) && (!r.value ==> db == old(db))
      ensures r.Ok? ==> reloads == old(reloads) + Bumped(r.value) && commands == old(commands)
      ensures db.extensions == old(db.extensions)
    {
      hide WellFormed, Shows, OthersKept, PlansKept, NumbersOk;
      var up := Begin();
      if !up { return Unavailable; }
      var t, deleted := DropPlanRows(db, view, name);
      SameNumbersOk(view, DropPlan(view, name));
      db, view := t, DropPlan(view, name);
      if deleted {
        reloads := reloads + 1;
      }
      return Ok(deleted);
    }

    method ListManagedDialplans(d: string) returns (r: Result<set<string>>)
      requires Valid()
      modifies this`calls
      ensures Guarded(StatusOf(r), ValidDomain(d)) && Untouched() && Valid()
      ensures r.Ok? ==> r.value == ManagedIn(view, d)
    {
      hide WellFormed, Shows, NumbersOk, ValidDomain, ManagedIn;
      if !ValidDomain(d) { return BadRequest; }
      var up := Begin();
      if !up { return Unavailable; }
      ManagedNames(db, view, d);
      return Ok(set u | u in db.dialplans && db.dialplans[u].isPublic
          && db.dialplans[u].tag == FeatureTag(d) :: db.dialplans[u].name);
    }

    // ---------------------------------------------------------------- settings

    method EnsureSwitchSettings(ghost d: string) returns (r: Result<bool>)
      requires Valid()
      modifies this
      ensures Guarded(StatusOf(r), true) && Valid()
      ensures r.Ok? ==> Wrote(d, PutDir(old(view), SWITCH_VOICEMAIL_DIR), iset{}) && (r.value <==> view != old(view))
      ensures r.Ok? ==> reloads == old(reloads) + Bumped(r.value) && commands == old(commands)
      ensures db.extensions == old(db.extensions)
      ensures r.Ok? ==> DirRowsFit(old(db.settings), db.settings, SWITCH_VOICEMAIL_DIR)
    {
      hide DirRowsFit, WellFormed, Shows, OthersKept, PlansKept, NumbersOk;
      var up := Begin();
      if !up { return Unavailable; }
      var t, changed := EnsureDirRow(db, view, d, SWITCH_VOICEMAIL_DIR);
      SameNumbersOk(view, PutDir(view, SWITCH_VOICEMAIL_DIR));
      SamePlansKept(db, t, iset{});
      db, view := t, PutDir(view, SWITCH_VOICEMAIL_DIR);
      if changed {
        reloads := reloads + 1;
      }
      return Ok(changed);
    }

    // ------------------------------------------------------------------ queues

    method EnsureQueue(d: string, number: string, agents: seq<string>, strategy: string) returns (r: Result<bool>)
      requires Valid()
      modifies this
      ensures Guarded(StatusOf(r), ValidDomain(d) && ValidToken(number) && agents != [] && ValidTokens(agents))
      ensures Valid()
      ensures r.Ok? ==>
        Wrote(d, PutQueue(old(view), d, number, strategy, Elems(agents)), iset{FeatureName(CallQueue, d, number)})
      ensures r.Ok? ==> OtherQueuesKept(old(db), db, d, number)
      ensures NoNewOrphans(old(db.agents), old(db.tiers), db.agents, db.tiers)
      ensures r.Ok? ==> (r.value <==> view.queues != old(view.queues) || view.plans != old(view.plans))
      ensures r.Ok? ==> reloads == old(reloads) + Bumped(r.value)
      ensures r.Ok? && view.queues == old(view.queues) ==> commands == old(commands)
      ensures r.Ok? ==> |old(commands)| <= |commands| && commands[..|old(commands)|] == old(commands)
      ensures r.Ok? ==>
        QueueAnnounced(old(view), old(db), db, d, number, Dedup(agents), strategy, commands[|old(commands)|..])
      ensures r.Ok? ==> NewRowsFit(old(db), db, d) && NewQueuesNamed(old(db), db)
      ensures r.Ok? ==> PlanRowFits(old(db), db, FeatureName(CallQueue, d, number), number, 53)
      ensures r.Ok? ==> Queued(view, d, number, agents, strategy)
      ensures db.extensions == old(db.extensions)
    {
      hide WellFormed, Shows, OthersKept, PlansKept, OtherQueuesKept, NoNewOrphans, NumbersOk, ValidDomain, ValidToken;
      hide ValidTokens, Elems, PutQueue, Distinct, QueueAnnounced, NewRowsFit, Queued, NewQueuesNamed, PlanRowFits;
      OrphansSame(db);
      if !ValidDomain(d) || !ValidToken(number) || agents == [] || !ValidTokens(agents) { return BadRequest; }
      var up := Begin();
      if !up { return Unavailable; }
      var t, cmds, changed := EnsureQueueRows(db, view, d, number, Dedup(agents), strategy);
      QueueNumbersOk(view, d, number, strategy, Elems(agents));
      PutQueueQueues(view, d, number, agents, strategy);
      db, view := t, PutQueue(view, d, number, strategy, Elems(agents));
      if changed {
        reloads := reloads + 1;
      }
      assert (commands + cmds)[|commands|..] == cmds && (commands + cmds)[..|commands|] == commands;
      commands := commands + cmds;
      return Ok(changed);
    }

    method DeleteQueue(d: string, number: string) returns (r: Result<bool>)
      requires Valid()
      modifies this
      ensures Guarded(StatusOf(r), ValidDomain(d) && ValidToken(number)) && Valid()
      ensures r.Ok? ==> Wrote(d, DropQueue(old(view), d, number), iset{FeatureName(CallQueue, d, number)})
      ensures r.Ok? ==> OtherQueuesKept(old(db), db, d, number)
      ensures NoNewOrphans(old(db.agents), old(db.tiers), db.agents, db.tiers)
      ensures r.Ok? ==> (r.value <==> view.queues != old(view.queues) || view.plans != old(view.plans))
      ensures r.Ok? ==> reloads == old(reloads) + Bumped(r.value)
      ensures r.Ok? ==> commands == old(commands) + if r.value then [QueueUnload(number, d)] else []
      ensures r.Ok? ==> NewRowsFit(old(db), db, d)
      ensures db.extensions == old(db.extensions)
    {
      hide WellFormed, Shows, OthersKept, PlansKept, OtherQueuesKept, NoNewOrphans, NumbersOk, ValidDomain, ValidToken;
      hide FeatureName, DropQueue, NewRowsFit;
      OrphansSame(db);
      if !ValidDomain(d) || !ValidToken(number) { return BadRequest; }
      var up := Begin();
      if !up { return Unavailable; }
      var t, deleted := DropQueueRows(db, view, d, number);
      DropQueueChanges(view, d, number);
      db, view := t, DropQueue(view, d, number);
      if deleted {
        reloads := reloads + 1;
        commands := commands + [QueueUnload(number, d)];
      }
      return Ok(deleted);
    }

    method ListQueues(d: string) returns (r: Result<set<string>>)
      requires Valid()
      modifies this`calls
      ensures Guarded(StatusOf(r), ValidDomain(d)) && Untouched() && Valid()
      ensures r.Ok? ==> r.value == NumbersIn(view.queues, d)
    {
      hide WellFormed, Shows, NumbersOk, ValidDomain, NumbersIn;
      if !ValidDomain(d) { return BadRequest; }
      var up := Begin();
      if !up { return Unavailable; }
      QueueNumbers(db, view, d);
      return Ok(set u | u in db.queues && OfDomain(db.domains, db.queues[u].domain, d) :: db.queues[u].extension);
    }

    /** Send the runtime commands that rebuild the domain's queues, agents and tiers. */
    method ResyncQueues(d: string) returns (r: Result<(nat, nat)>)
      requires Valid()
      modifies this`calls, this`commands
      ensures Guarded(StatusOf(r), ValidDomain(d)) && Valid()
      ensures r.Ok? ==> r.value == (|Runtime.QueuesOf(db, d)|, |Runtime.AgentsIn(db, d)|)
      ensures r.Ok? ==> |old(commands)| <= |commands| && commands[..|old(commands)|] == old(commands)
      ensures r.Ok? ==> Runtime.Adds(commands[|old(commands)|..], Runtime.RuntimeOf(db, d))
    {
      hide WellFormed, Shows, NumbersOk, ValidDomain, Runtime.Adds;
      if !ValidDomain(d) { return BadRequest; }
      var up := Begin();
      if !up { return Unavailable; }
      if forall u :: u in db.domains ==> db.domains[u] != d {
        NoRuntime(db, d);
        Runtime.AddsNothing();
        assert commands[|commands|..] == [];
        return Ok((0, 0));
      }
      var cmds := Runtime.ResyncCommands(db, d);
      assert (commands + cmds)[|commands|..] == cmds && (commands + cmds)[..|commands|] == commands;
      hide Runtime.RuntimeOf;
      commands := commands + cmds;
      return Ok((|Runtime.QueuesOf(db, d)|, |Runtime.AgentsIn(db, d)|));
    }
  }

  lemma NoRuntime(t: Db, d: string)
    requires forall u :: u in t.domains ==> t.domains[u] != d
    ensures Runtime.QueuesOf(t, d) == {} && Runtime.AgentsIn(t, d) == {}
    ensures Runtime.RuntimeOf(t, d) == Runtime.NOTHING
  {
    assert Runtime.TiersIn(t, d) == {};
  }

  /** The dialplan under the conference's name leads callers of its domain into its room. */
  predicate RoomAt(v: View, d: string, number: string) {
    var name := FeatureName(Conference, d, number);
    name in v.plans && SaysConference(v.plans[name].xml, d, number)
  }

  /** The dialplan under the ring group's name offers these members for this time. */
  predicate RingAt(v: View, d: string, number: string, members: seq<string>, strategy: string, timeout: int) {
    var name := FeatureName(RingGroup, d, number);
    name in v.plans && SaysRing(v.plans[name].xml, d, number, members, strategy, timeout)
  }

  /** The dialplan under the IVR's name plays the greeting and sends each digit to its target. */
  ghost predicate IvrAt(v: View, d: string, number: string, options: map<string, string>, greeting: string) {
    var name := FeatureName(Ivr, d, number);
    name in v.plans && SaysIvr(v.plans[name].xml, d, number, options, greeting)
  }

  /** Callers see this name, called parties see it, and the directory lists it. */
  predicate AllNamed(names: ExtNames, display: string) {
    names.callerId == display && names.outbound == display && names.directory == display
  }

  lemma PutExtNames(v: View, d: string, number: string, display: string)
    ensures var w := PutExt(v, d, number, display);
      Key(d, number) in w.exts && AllNamed(w.exts[Key(d, number)], display)
  {}

  lemma ExtNumbersOk(v: View, d: string, number: string, display: string)
    requires NumbersOk(v) && ValidToken(number)
    ensures NumbersOk(PutExt(v, d, number, display))
  {
    hide ValidToken;
  }

  lemma DropExtNumbersOk(v: View, d: string, number: string)
    requires NumbersOk(v)
    ensures NumbersOk(DropExt(v, d, number))
  {
    hide ValidToken;
  }

  lemma SameNumbersOk(v: View, w: View)
    requires NumbersOk(v) && w.exts == v.exts && w.queues == v.queues
    ensures NumbersOk(w)
  {
    hide ValidToken;
  }

  lemma QueueNumbersOk(v: View, d: string, number: string, strategy: string, agents: set<string>)
    requires NumbersOk(v) && ValidToken(number)
    ensures NumbersOk(PutQueue(v, d, number, strategy, agents))
  {
    hide ValidToken, FeatureName;
  }

  /** The queue is there with this strategy and exactly these agents, and its dialplan leads to it. */
  ghost predicate Queued(v: View, d: string, number: string, agents: seq<string>, strategy: string) {
    && Key(d, number) in v.queues && v.queues[Key(d, number)].strategy == strategy
    && (forall a :: a in v.queues[Key(d, number)].agents <==> a in agents)
    && FeatureName(CallQueue, d, number) in v.plans
    && SaysQueue(v.plans[FeatureName(CallQueue, d, number)].xml, d, number)
  }

  lemma PutQueueQueues(v: View, d: string, number: string, agents: seq<string>, strategy: string)
    ensures Queued(PutQueue(v, d, number, strategy, Elems(agents)), d, number, agents, strategy)
  {
    hide FeatureName;
  }

  lemma DropQueueChanges(v: View, d: string, number: string)
    requires NumbersOk(v)
    ensures NumbersOk(DropQueue(v, d, number))
    ensures var w := DropQueue(v, d, number);
      && (w == v <==> w.queues == v.queues && w.plans == v.plans)
      && (w != v <==> d in v.domains && (Key(d, number) in v.queues || FeatureName(CallQueue, d, number) in v.plans))
  {
    DropQueueAbsent(v, d, number);
    hide ValidToken, FeatureName;
  }
}

/** What a customer finds on the PBX, told number by number from the fields of the desired state:
    who answers, what each dialplan does when it is read, and that there is nothing else
    (app/services/reconcile/voice.py). */
module EndState {
  import opened Names
  import opened Tables
  import opened Dialplans
  import opened Client
  import opened Models

  /** The extensions are the wanted numbers, under the wanted names. */
  ghost predicate ExtsServed(v: View, m: Model) {
    && (forall n :: Key(m.dom, n) in v.exts <==> n in m.exts)
    && (forall n :: n in m.exts ==> AllNamed(v.exts[Key(m.dom, n)], m.exts[n].display))
  }

  /** A wanted extension has a voicemail box exactly when its setting says so. */
  ghost predicate BoxesServed(v: View, m: Model) {
    forall n :: n in m.exts ==> (Key(m.dom, n) in v.boxes <==> m.exts[n].voicemail)
  }

  /** Among the domain's own numbers exactly these have a dialplan of this kind. */
  ghost predicate OnlyAt(names: iset<string>, v: View, d: string, k: Kind, numbers: set<string>) {
    && (forall n :: n in numbers ==> FeatureName(k, d, n) in v.plans)
    && (forall n :: Mine(names, d, n) && FeatureName(k, d, n) in v.plans ==> n in numbers)
  }

  ghost predicate RoomsServed(names: iset<string>, v: View, m: Model) {
    && OnlyAt(names, v, m.dom, Conference, m.conferences)
    && forall n :: n in m.conferences ==> RoomAt(v, m.dom, n)
  }

  /** Each ring group offers its members for its time, at once or in turn. */
  ghost predicate RingsServed(names: iset<string>, v: View, m: Model) {
    && OnlyAt(names, v, m.dom, RingGroup, m.rings.Keys)
    && forall n :: n in m.rings ==>
         RingAt(v, m.dom, n, m.rings[n].members, m.rings[n].strategy, m.rings[n].timeout)
  }

  /** Each IVR plays its greeting and sends each of its digits to that digit's target. */
  ghost predicate IvrsServed(names: iset<string>, v: View, m: Model) {
    && OnlyAt(names, v, m.dom, Ivr, m.ivrs.Keys)
    && forall n :: n in m.ivrs ==> IvrAt(v, m.dom, n, m.ivrs[n].options, m.ivrs[n].greeting)
  }

  /** Each queue has its strategy and its agents, and its dialplan leads to it. */
  ghost predicate QueuesServed(names: iset<string>, v: View, m: Model) {
    && OnlyAt(names, v, m.dom, CallQueue, m.queues.Keys)
    && (forall n :: Key(m.dom, n) in v.queues <==> n in m.queues)
    && (forall n :: n in m.queues ==> Queued(v, m.dom, n, m.queues[n].agents, m.queues[n].strategy))
  }

  /** The PBX provides what the lists of the desired state name, and nothing besides. */
  ghost predicate Provides(names: iset<string>, v: View, m: Model) {
    && ExtsServed(v, m) && RoomsServed(names, v, m) && RingsServed(names, v, m) && IvrsServed(names, v, m)
    && QueuesServed(names, v, m)
  }

  /** The domain has no extension, no queue and no dialplan under a number of its own. */
  ghost predicate NothingAt(names: iset<string>, v: View, d: string) {
    && (forall n :: Key(d, n) !in v.exts && Key(d, n) !in v.queues)
    && (forall k, n :: Mine(names, d, n) ==> FeatureName(k, d, n) !in v.plans)
  }

  /** An active customer is provided for, with its voicemail boxes; a suspended one has nothing. */
  ghost predicate InService(names: iset<string>, v: View, m: Model) {
    if m.active then Provides(names, v, m) && BoxesServed(v, m) else NothingAt(names, v, m.dom)
  }
}

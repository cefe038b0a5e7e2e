/** The worker slots shared by all runs of a process: a global limit, a limit per tenant, and a limit
    on how many may wait. Tenant entries are created by the first user and deleted by the last. */
module WorkerCapacity {

  datatype Limits = Limits(total: int, perTenant: int, maxInflight: int, maxTenantInflight: int)

  function Max(a: int, b: int): int {
    if a >= b then a else b
  }

  function GlobalSlots(l: Limits): nat {
    Max(1, l.total)
  }

  function SlotsPerTenant(l: Limits): nat {
    Max(1, if l.perTenant < l.total then l.perTenant else l.total)
  }

  datatype Slots = Slots(permits: int, users: int)

  /** The counters; `O` identifies slot objects, which a user keeps a reference to. */
  datatype Capacity<O> = Capacity(global: int, objects: map<O, Slots>, tenants: map<string, O>, inflight: int)

  // ---------------------------------------------------------------- steps

  datatype Phase = Waiting | Holding | Running

  predicate Refuses<O>(l: Limits, c: Capacity<O>, tenant: string)
    requires tenant in c.tenants ==> c.tenants[tenant] in c.objects
  {
    || c.inflight >= l.maxInflight
    || (tenant in c.tenants && c.objects[c.tenants[tenant]].users >= l.maxTenantInflight)
  }

  /** The slot object of a tenant, creating it when there is none. */
  function Admit<O>(l: Limits, c: Capacity<O>, tenant: string, created: O): (Capacity<O>, O)
    requires tenant in c.tenants ==> c.tenants[tenant] in c.objects
  {
    var o := if tenant in c.tenants then c.tenants[tenant] else created;
    var slots := if tenant in c.tenants then c.objects[o] else Slots(SlotsPerTenant(l), 0);
    (Capacity(c.global, c.objects[o := slots.(users := slots.users + 1)], c.tenants[tenant := o], c.inflight + 1), o)
  }

  function TakeTenant<O>(c: Capacity<O>, o: O): Capacity<O>
    requires o in c.objects
  {
    c.(objects := c.objects[o := c.objects[o].(permits := c.objects[o].permits - 1)])
  }

  function TakeGlobal<O>(c: Capacity<O>): Capacity<O> {
    c.(global := c.global - 1)
  }

  /** Gives back what was taken, then leaves; the last user of an object deletes the entry. */
  function Leave<O>(c: Capacity<O>, tenant: string, o: O, phase: Phase): Capacity<O>
    requires o in c.objects
  {
    var slots := Slots(c.objects[o].permits + (if phase == Waiting then 0 else 1), c.objects[o].users - 1);
    Capacity(c.global + (if phase == Running then 1 else 0),
             c.objects[o := slots],
             if slots.users == 0 then c.tenants - {tenant} else c.tenants,
             c.inflight - 1)
  }

  // ---------------------------------------------------------------- the object

  class TenantSlots {
    var permits: int
    var users: int

    constructor (permits: int)
      ensures this.permits == permits && users == 0
    {
      this.permits, users := permits, 0;
    }
  }

  class DagWorkerCapacity {
    const limits: Limits
    var global: int
    var tenants: map<string, TenantSlots>
    var inflight: int
    ghost var repr: set<TenantSlots>

    ghost function View(): Capacity<TenantSlots> reads this, repr {
      Capacity(global, map o | o in repr :: Slots(o.permits, o.users), tenants, inflight)
    }

    ghost predicate Valid() reads this {
      forall t :: t in tenants ==> tenants[t] in repr
    }

    constructor (limits: Limits)
      ensures Valid() && this.limits == limits && View() == Capacity(GlobalSlots(limits), map[], map[], 0)
    {
      this.limits := limits;
      global, tenants, inflight, repr := GlobalSlots(limits), map[], 0, {};
    }

    /** Joins the queue of a tenant, or is refused for overload. */
    method Join(tenant: string) returns (slots: TenantSlots?)
      requires Valid()
      modifies this, repr
      ensures Valid()
      ensures slots == null <==> old(Refuses(limits, View(), tenant))
      ensures slots == null <==>
                || old(inflight) >= limits.maxInflight
                || (tenant in old(tenants) && old(tenants[tenant].users) >= limits.maxTenantInflight)
      ensures slots == null ==> View() == old(View())
      ensures slots != null ==> (View(), slots) == Admit(limits, old(View()), tenant, slots)
      ensures slots != null && tenant !in old(tenants) ==> fresh(slots)
    {
      if inflight >= limits.maxInflight || (tenant in tenants && tenants[tenant].users >= limits.maxTenantInflight) {
        return null;
      }
      if tenant !in tenants {
        var created := new TenantSlots(SlotsPerTenant(limits));
        tenants := tenants[tenant := created];
        repr := repr + {created};
      }
      slots := tenants[tenant];
      slots.users := slots.users + 1;
      inflight := inflight + 1;
      assert tenants == old(tenants)[tenant := slots];
      assert View().objects == Admit(limits, old(View()), tenant, slots).0.objects;
    }

    method TakeTenantSlot(slots: TenantSlots)
      requires Valid() && slots in repr && slots.permits > 0
      modifies slots
      ensures Valid() && View() == TakeTenant(old(View()), slots)
    {
      slots.permits := slots.permits - 1;
    }

    method TakeGlobalSlot()
      requires Valid() && global > 0
      modifies this
      ensures Valid() && repr == old(repr) && View() == TakeGlobal(old(View()))
    {
      global := global - 1;
    }

    /** However the holder ends, at whatever stage: gives back and leaves. */
    method Release(tenant: string, slots: TenantSlots, phase: Phase)
      requires Valid() && slots in repr
      modifies this, slots
      ensures Valid() && repr == old(repr) && View() == Leave(old(View()), tenant, slots, phase)
    {
      if phase == Running {
        global := global + 1;
      }
      if phase != Waiting {
        slots.permits := slots.permits + 1;
      }
      slots.users := slots.users - 1;
      inflight := inflight - 1;
      if slots.users == 0 {
        tenants := tenants - {tenant};
      }
    }
  }

  // ---------------------------------------------------------------- all interleavings

  datatype User = User(tenant: string, slots: nat, phase: Phase)

  datatype World = World(capacity: Capacity<nat>, users: map<nat, User>)

  datatype Event =
    | Enter(id: nat, tenant: string, created: nat)
    | TenantSlot(id: nat)
    | GlobalSlot(id: nat)
    | Exit(id: nat)

  predicate Enabled(w: World, e: Event) {
    var c := w.capacity;
    match e
    case Enter(id, tenant, created) =>
      id !in w.users && created !in c.objects && (tenant in c.tenants ==> c.tenants[tenant] in c.objects)
    case TenantSlot(id) =>
      && id in w.users && w.users[id].phase == Waiting
      && w.users[id].slots in c.objects && c.objects[w.users[id].slots].permits > 0
    case GlobalSlot(id) => id in w.users && w.users[id].phase == Holding && c.global > 0
    case Exit(id) => id in w.users && w.users[id].slots in c.objects
  }

  function Do(l: Limits, w: World, e: Event): World
    requires Enabled(w, e)
  {
    var c := w.capacity;
    match e
    case Enter(id, tenant, created) =>
      if Refuses(l, c, tenant) then w
      else
        var (next, o) := Admit(l, c, tenant, created);
        World(next, w.users[id := User(tenant, o, Waiting)])
    case TenantSlot(id) =>
      World(TakeTenant(c, w.users[id].slots), w.users[id := w.users[id].(phase := Holding)])
    case GlobalSlot(id) =>
      World(TakeGlobal(c), w.users[id := w.users[id].(phase := Running)])
    case Exit(id) =>
      World(Leave(c, w.users[id].tenant, w.users[id].slots, w.users[id].phase), w.users - {id})
  }

  function Start(l: Limits): World {
    World(Capacity(GlobalSlots(l), map[], map[], 0), map[])
  }

  ghost predicate Leads(l: Limits, w: World, events: seq<Event>, v: World)
    decreases |events|
  {
    if events == [] then w == v
    else Enabled(w, events[0]) && Leads(l, Do(l, w, events[0]), events[1..], v)
  }

  // ---------------------------------------------------------------- counting users

  datatype Filter = Everyone | OfTenant(tenant: string) | HoldersOf(tenant: string) | AllRunning

  predicate Meets(u: User, f: Filter) {
    match f
    case Everyone => true
    case OfTenant(t) => u.tenant == t
    case HoldersOf(t) => u.tenant == t && u.phase != Waiting
    case AllRunning => u.phase == Running
  }

  function Pick(users: map<nat, User>, f: Filter): set<nat> {
    set id | id in users && Meets(users[id], f)
  }

  function Count(users: map<nat, User>, f: Filter): nat {
    |Pick(users, f)|
  }

  function One(b: bool): nat {
    if b then 1 else 0
  }

  lemma CountUpdate(users: map<nat, User>, id: nat, u: User, f: Filter)
    ensures Count(users[id := u], f) == Count(users, f) - One(id in users && Meets(users[id], f)) + One(Meets(u, f))
  {
    var rest := Pick(users, f) - {id};
    assert Pick(users[id := u], f) == if Meets(u, f) then rest + {id} else rest;
  }

  lemma CountRemove(users: map<nat, User>, id: nat, f: Filter)
    requires id in users
    ensures Count(users - {id}, f) == Count(users, f) - One(Meets(users[id], f))
  {
    assert Pick(users - {id}, f) == Pick(users, f) - {id};
  }

  lemma CountSome(users: map<nat, User>, id: nat, f: Filter)
    requires id in users && Meets(users[id], f)
    ensures Count(users, f) >= 1
  {
    assert id in Pick(users, f);
  }

  // ---------------------------------------------------------------- the invariant

  /** The object of a tenant counts its users and the slots they hold. */
  predicate TenantOk(l: Limits, w: World, t: string) {
    && t in w.capacity.tenants && w.capacity.tenants[t] in w.capacity.objects
    && var s := w.capacity.objects[w.capacity.tenants[t]];
    && s.users == Count(w.users, OfTenant(t)) && 1 <= s.users <= Max(1, l.maxTenantInflight)
    && s.permits + Count(w.users, HoldersOf(t)) == SlotsPerTenant(l) && s.permits >= 0
  }

  /** A user's reference is the object the tenant's entry names now. */
  predicate UserOk(w: World, id: nat)
    requires id in w.users
  {
    w.users[id].tenant in w.capacity.tenants && w.capacity.tenants[w.users[id].tenant] == w.users[id].slots
  }

  predicate Apart(w: World, t: string, u: string) {
    t in w.capacity.tenants && u in w.capacity.tenants && w.capacity.tenants[t] == w.capacity.tenants[u] ==> t == u
  }

  ghost predicate TenantsOk(l: Limits, w: World) {
    forall t {:trigger TenantOk(l, w, t)} :: t in w.capacity.tenants ==> TenantOk(l, w, t)
  }

  ghost predicate UsersOk(w: World) {
    && (forall id {:trigger UserOk(w, id)} :: id in w.users ==> UserOk(w, id))
    && (forall t, u {:trigger Apart(w, t, u)} :: Apart(w, t, u))
  }

  ghost predicate Inv(l: Limits, w: World) {
    var ok :=
      && TenantsOk(l, w) && UsersOk(w)
      && w.capacity.global + Count(w.users, AllRunning) == GlobalSlots(l) && w.capacity.global >= 0
      && w.capacity.inflight == Count(w.users, Everyone) <= Max(0, l.maxInflight);
    ok
  }

  lemma StartHolds(l: Limits)
    ensures Inv(l, Start(l))
  {
    assert Pick(map[], AllRunning) == {} && Pick(map[], Everyone) == {};
  }

  /** What one step does to the counts of a tenant it does not concern. */
  lemma OthersKept(l: Limits, w: World, v: World, mine: string, t: string)
    requires TenantOk(l, w, t) && t != mine && t in v.capacity.tenants
    requires v.capacity.tenants[t] == w.capacity.tenants[t] && w.capacity.tenants[t] in v.capacity.objects
    requires v.capacity.objects[w.capacity.tenants[t]] == w.capacity.objects[w.capacity.tenants[t]]
    requires Count(v.users, OfTenant(t)) == Count(w.users, OfTenant(t))
    requires Count(v.users, HoldersOf(t)) == Count(w.users, HoldersOf(t))
    ensures TenantOk(l, v, t)
  {
  }

  lemma NoUserWithoutEntry(l: Limits, w: World, t: string)
    requires Inv(l, w) && t !in w.capacity.tenants
    ensures Count(w.users, OfTenant(t)) == 0 && Count(w.users, HoldersOf(t)) == 0
  {
    forall id | id in w.users
      ensures w.users[id].tenant != t
    {
      assert UserOk(w, id);
    }
    assert Pick(w.users, OfTenant(t)) == {} && Pick(w.users, HoldersOf(t)) == {};
  }

  /** What entering and moving on do to the users. */
  ghost predicate Moved(w: World, v: World, id: nat, user: User) {
    && v.users == w.users[id := user]
    && forall f: Filter {:trigger Count(v.users, f)} ::
         Count(v.users, f) == Count(w.users, f) - One(id in w.users && Meets(w.users[id], f)) + One(Meets(user, f))
  }

  lemma MovedCounts(w: World, v: World, id: nat, user: User)
    requires v.users == w.users[id := user]
    ensures Moved(w, v, id, user)
  {
    forall f: Filter
      ensures Count(v.users, f) == Count(w.users, f) - One(id in w.users && Meets(w.users[id], f)) + One(Meets(user, f))
    {
      CountUpdate(w.users, id, user, f);
    }
  }

  lemma EnterTenants(l: Limits, w: World, e: Event, v: World)
    requires Inv(l, w) && e.Enter? && Enabled(w, e) && !Refuses(l, w.capacity, e.tenant) && v == Do(l, w, e)
    requires Moved(w, v, e.id, v.users[e.id])
    ensures TenantsOk(l, v)
  {
    var mine := e.tenant;
    if mine in w.capacity.tenants {
      assert TenantOk(l, w, mine);
    } else {
      NoUserWithoutEntry(l, w, mine);
    }
    assert TenantOk(l, v, mine);
    forall t | t in v.capacity.tenants && t != mine
      ensures TenantOk(l, v, t)
    {
      assert TenantOk(l, w, t);
      assert Apart(w, t, mine);
      OthersKept(l, w, v, mine, t);
    }
  }

  lemma EnterUsers(l: Limits, w: World, e: Event, v: World)
    requires Inv(l, w) && e.Enter? && Enabled(w, e) && !Refuses(l, w.capacity, e.tenant) && v == Do(l, w, e)
    ensures UsersOk(v)
  {
    forall t, u
      ensures Apart(v, t, u)
    {
      assert Apart(w, t, u);
      assert t in w.capacity.tenants ==> TenantOk(l, w, t);
      assert u in w.capacity.tenants ==> TenantOk(l, w, u);
    }
    forall id | id in v.users
      ensures UserOk(v, id)
    {
      assert id != e.id ==> UserOk(w, id);
    }
  }

  lemma EnterKeepsInv(l: Limits, w: World, e: Event, v: World)
    requires Inv(l, w) && e.Enter? && Enabled(w, e) && v == Do(l, w, e)
    ensures Inv(l, v)
  {
    if !Refuses(l, w.capacity, e.tenant) {
      MovedCounts(w, v, e.id, v.users[e.id]);
      EnterTenants(l, w, e, v);
      EnterUsers(l, w, e, v);
    }
  }

  lemma TakeTenants(l: Limits, w: World, e: Event, v: World)
    requires Inv(l, w) && (e.TenantSlot? || e.GlobalSlot?) && Enabled(w, e) && v == Do(l, w, e)
    requires Moved(w, v, e.id, v.users[e.id])
    ensures TenantsOk(l, v)
  {
    var mine := w.users[e.id].tenant;
    assert UserOk(w, e.id);
    assert TenantOk(l, w, mine);
    assert TenantOk(l, v, mine);
    forall t | t in v.capacity.tenants && t != mine
      ensures TenantOk(l, v, t)
    {
      assert TenantOk(l, w, t);
      assert Apart(w, t, mine);
      OthersKept(l, w, v, mine, t);
    }
  }

  lemma TakeKeepsInv(l: Limits, w: World, e: Event, v: World)
    requires Inv(l, w) && (e.TenantSlot? || e.GlobalSlot?) && Enabled(w, e) && v == Do(l, w, e)
    ensures Inv(l, v)
  {
    MovedCounts(w, v, e.id, v.users[e.id]);
    TakeTenants(l, w, e, v);
    forall t, u
      ensures Apart(v, t, u)
    {
      assert Apart(w, t, u);
    }
    forall id | id in v.users
      ensures UserOk(v, id)
    {
      assert UserOk(w, id);
    }
  }

  /** What leaving does to the users. */
  ghost predicate Left(w: World, v: World, id: nat)
    requires id in w.users
  {
    && v.users == w.users - {id}
    && forall f: Filter {:trigger Count(v.users, f)} ::
          Count(v.users, f) == Count(w.users, f) - One(Meets(w.users[id], f))
  }

  lemma LeftCounts(w: World, v: World, id: nat)
    requires id in w.users && v.users == w.users - {id}
    ensures Left(w, v, id)
  {
    forall f: Filter
      ensures Count(v.users, f) == Count(w.users, f) - One(Meets(w.users[id], f))
    {
      CountRemove(w.users, id, f);
    }
  }

  lemma ExitTenants(l: Limits, w: World, e: Event, v: World)
    requires Inv(l, w) && e.Exit? && Enabled(w, e) && v == Do(l, w, e) && Left(w, v, e.id)
    ensures TenantsOk(l, v)
  {
    var mine := w.users[e.id].tenant;
    assert UserOk(w, e.id);
    assert TenantOk(l, w, mine);
    if mine in v.capacity.tenants {
      assert TenantOk(l, v, mine);
    }
    forall t | t in v.capacity.tenants && t != mine
      ensures TenantOk(l, v, t)
    {
      assert TenantOk(l, w, t);
      assert Apart(w, t, mine);
      OthersKept(l, w, v, mine, t);
    }
  }

  lemma ExitUsers(l: Limits, w: World, e: Event, v: World)
    requires Inv(l, w) && e.Exit? && Enabled(w, e) && v == Do(l, w, e) && Left(w, v, e.id)
    ensures UsersOk(v)
  {
    var mine := w.users[e.id].tenant;
    assert UserOk(w, e.id);
    assert TenantOk(l, w, mine);
    forall t, u
      ensures Apart(v, t, u)
    {
      assert Apart(w, t, u);
    }
    forall id | id in v.users
      ensures UserOk(v, id)
    {
      assert UserOk(w, id);
      if w.users[id].tenant == mine {
        CountSome(v.users, id, OfTenant(mine));
      }
    }
  }

  lemma ExitKeepsInv(l: Limits, w: World, e: Event, v: World)
    requires Inv(l, w) && e.Exit? && Enabled(w, e) && v == Do(l, w, e)
    ensures Inv(l, v)
  {
    LeftCounts(w, v, e.id);
    ExitTenants(l, w, e, v);
    ExitUsers(l, w, e, v);
  }

  lemma StepKeepsInv(l: Limits, w: World, e: Event)
    requires Inv(l, w) && Enabled(w, e)
    ensures Inv(l, Do(l, w, e))
  {
    match e
    case Enter(_, _, _) => EnterKeepsInv(l, w, e, Do(l, w, e));
    case Exit(_) => ExitKeepsInv(l, w, e, Do(l, w, e));
    case _ => TakeKeepsInv(l, w, e, Do(l, w, e));
  }

  lemma {:induction false} RunKeepsInv(l: Limits, w: World, events: seq<Event>, v: World)
    requires Inv(l, w) && Leads(l, w, events, v)
    ensures Inv(l, v)
    decreases |events|
  {
    if events != [] {
      StepKeepsInv(l, w, events[0]);
      RunKeepsInv(l, Do(l, w, events[0]), events[1..], v);
    }
  }

  ghost predicate Reached(l: Limits, w: World) {
    exists events :: Leads(l, Start(l), events, w)
  }

  lemma ReachedHolds(l: Limits, w: World)
    requires Reached(l, w)
    ensures Inv(l, w)
  {
    var events :| Leads(l, Start(l), events, w);
    StartHolds(l);
    RunKeepsInv(l, Start(l), events, w);
  }

  // ---------------------------------------------------------------- the promises

  /** Running work stays within both slot limits, however entries come and go. */
  lemma WithinSlots(l: Limits, w: World, t: string)
    requires Reached(l, w)
    ensures Count(w.users, AllRunning) <= GlobalSlots(l)
    ensures Count(w.users, HoldersOf(t)) <= SlotsPerTenant(l)
  {
    ReachedHolds(l, w);
    if t in w.capacity.tenants {
      assert TenantOk(l, w, t);
    } else {
      NoUserWithoutEntry(l, w, t);
    }
  }

  /** How many slots there are: at least one, and no tenant has more than there are in all. */
  lemma SlotsMeaning(l: Limits)
    ensures l.total >= 1 ==> GlobalSlots(l) == l.total
    ensures l.total < 1 ==> GlobalSlots(l) == 1
    ensures 1 <= l.perTenant <= l.total ==> SlotsPerTenant(l) == l.perTenant
    ensures l.perTenant > l.total >= 1 ==> SlotsPerTenant(l) == l.total
    ensures l.perTenant < 1 || l.total < 1 ==> SlotsPerTenant(l) == 1
  {
  }

  /** Who is let in, told from the users there are: a newcomer is refused exactly if the queue is full, or
      its tenant has users and as many as its cap; otherwise it waits, and nobody else is affected. */
  lemma LetInExactly(l: Limits, w: World, id: nat, tenant: string, created: nat)
    requires Reached(l, w) && Enabled(w, Enter(id, tenant, created))
    ensures var mine := Count(w.users, OfTenant(tenant));
            var v := Do(l, w, Enter(id, tenant, created));
            if Count(w.users, Everyone) >= l.maxInflight || (mine > 0 && mine >= l.maxTenantInflight) then v == w
            else
              && id in v.users && v.users == w.users[id := v.users[id]]
              && v.users[id].tenant == tenant && v.users[id].phase == Waiting
  {
    ReachedHolds(l, w);
    if tenant in w.capacity.tenants {
      assert TenantOk(l, w, tenant);
    } else {
      NoUserWithoutEntry(l, w, tenant);
    }
  }

  /** A tenant has an entry exactly while it has users, and all of them share its one object. */
  lemma EntryWhileUsed(l: Limits, w: World, t: string)
    requires Reached(l, w)
    ensures t in w.capacity.tenants <==> Count(w.users, OfTenant(t)) > 0
    ensures forall id :: id in w.users && w.users[id].tenant == t ==>
              t in w.capacity.tenants && w.users[id].slots == w.capacity.tenants[t]
    ensures t in w.capacity.tenants ==>
              && w.capacity.tenants[t] in w.capacity.objects
              && w.capacity.objects[w.capacity.tenants[t]].users == Count(w.users, OfTenant(t))
  {
    ReachedHolds(l, w);
    if t in w.capacity.tenants {
      assert TenantOk(l, w, t);
    } else {
      NoUserWithoutEntry(l, w, t);
    }
    forall id | id in w.users && w.users[id].tenant == t
      ensures t in w.capacity.tenants && w.users[id].slots == w.capacity.tenants[t]
    {
      assert UserOk(w, id);
    }
  }

  /** Both caps on waiting and running work hold. The first user of a tenant is not checked against
      the tenant cap, so a cap below one acts as one. */
  lemma WithinCaps(l: Limits, w: World, t: string)
    requires Reached(l, w)
    ensures w.capacity.inflight == Count(w.users, Everyone) <= Max(0, l.maxInflight)
    ensures Count(w.users, OfTenant(t)) <= Max(1, l.maxTenantInflight)
  {
    ReachedHolds(l, w);
    if t in w.capacity.tenants {
      assert TenantOk(l, w, t);
    } else {
      NoUserWithoutEntry(l, w, t);
    }
  }

  predicate Entered(c: Capacity<nat>, names: seq<string>) {
    forall t :: t in names ==> t in c.tenants && c.tenants[t] in c.objects
  }

  /** Users of the listed tenants, by their entries. */
  function SumOfUsers(c: Capacity<nat>, names: seq<string>): int
    requires Entered(c, names)
  {
    if names == [] then 0
    else SumOfUsers(c, names[..|names| - 1]) + c.objects[c.tenants[names[|names| - 1]]].users
  }

  predicate Distinct(names: seq<string>) {
    forall i, j :: 0 <= i < j < |names| ==> names[i] != names[j]
  }

  function Among(users: map<nat, User>, names: seq<string>): set<nat> {
    set id | id in users && users[id].tenant in names
  }

  lemma AmongOneMore(users: map<nat, User>, init: seq<string>, last: string)
    requires last !in init
    ensures |Among(users, init + [last])| == |Among(users, init)| + Count(users, OfTenant(last))
  {
    var a, b := Among(users, init), Pick(users, OfTenant(last));
    assert Among(users, init + [last]) == a + b;
    assert a !! b;
  }

  lemma {:induction false} SumCountsUsers(l: Limits, w: World, names: seq<string>)
    requires TenantsOk(l, w) && Distinct(names) && Entered(w.capacity, names)
    ensures SumOfUsers(w.capacity, names) == |Among(w.users, names)|
    decreases |names|
  {
    if names == [] {
      assert Among(w.users, names) == {};
    } else {
      var n := |names| - 1;
      var init, last := names[..n], names[n];
      assert last in names;
      assert Entered(w.capacity, init);
      SumCountsUsers(l, w, init);
      assert TenantOk(l, w, last);
      AmongOneMore(w.users, init, last);
      assert names == init + [last];
    }
  }

  /** The total counter is the sum of the tenants' user counters. */
  lemma InflightIsSum(l: Limits, w: World, names: seq<string>)
    requires Reached(l, w) && Distinct(names) && forall t :: t in names <==> t in w.capacity.tenants
    ensures Entered(w.capacity, names)
    ensures w.capacity.inflight == SumOfUsers(w.capacity, names)
  {
    ReachedHolds(l, w);
    forall t | t in names
      ensures t in w.capacity.tenants && w.capacity.tenants[t] in w.capacity.objects
    {
      assert TenantOk(l, w, t);
    }
    SumCountsUsers(l, w, names);
    forall id | id in w.users
      ensures w.users[id].tenant in names
    {
      assert UserOk(w, id);
    }
    assert Among(w.users, names) == Pick(w.users, Everyone);
  }

  /** Whenever work is queued, something runs or can take the slot it waits for. */
  lemma NeverStuck(l: Limits, w: World, id: nat)
    requires Reached(l, w) && id in w.users
    ensures || (exists other :: other in w.users && w.users[other].phase == Running)
            || (exists other :: Enabled(w, GlobalSlot(other)))
            || (exists other :: Enabled(w, TenantSlot(other)))
  {
    ReachedHolds(l, w);
    if Pick(w.users, AllRunning) != {} {
      var other :| other in Pick(w.users, AllRunning);
      assert other in w.users && w.users[other].phase == Running;
    } else if w.users[id].phase == Waiting {
      WaitsForItsTenant(l, w, id);
    } else {
      assert id !in Pick(w.users, AllRunning);
      assert Enabled(w, GlobalSlot(id));
    }
  }

  /** A waiting user that cannot take its tenant's slot waits for its own tenant only, which then
      holds all the slots it may; some holder of that tenant runs or waits for the global slots. */
  lemma WaitsForItsTenant(l: Limits, w: World, id: nat)
    requires Reached(l, w) && id in w.users && w.users[id].phase == Waiting
    ensures Enabled(w, TenantSlot(id)) <==> Count(w.users, HoldersOf(w.users[id].tenant)) < SlotsPerTenant(l)
    ensures !Enabled(w, TenantSlot(id)) ==>
              exists other :: other in w.users && w.users[other].tenant == w.users[id].tenant
                && (w.users[other].phase == Running || (w.users[other].phase == Holding
                   && (Enabled(w, GlobalSlot(other)) <==> Count(w.users, AllRunning) < GlobalSlots(l))))
  {
    ReachedHolds(l, w);
    var t := w.users[id].tenant;
    assert UserOk(w, id);
    assert TenantOk(l, w, t);
    if !Enabled(w, TenantSlot(id)) {
      assert Pick(w.users, HoldersOf(t)) != {};
      var other :| other in Pick(w.users, HoldersOf(t));
      assert other in w.users && w.users[other].tenant == t;
    }
  }
}

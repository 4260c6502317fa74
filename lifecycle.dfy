/** The two small state machines inside a `Result` node, as pure rules:
    the write-once-or-match role binding and the data slot with its
    lifecycle tag. The class in module Results applies them in place. */
module Lifecycle {

  datatype Option<T> = None | Some(value: T)

  /** The exceptions the modelled code raises. */
  datatype Error =
    | AlreadyOwned    // ValueError: the node already has a different owner
    | DifferentIndex  // ValueError: same owner, different output index
    | NotAnOutput     // ValueError from `owner.outputs.index(self)`
    | NameNotString   // TypeError from the name setter
    | FilterRejected  // whatever a subclass's `filter` raises for bad data
    | Unsupported     // AbstractFunctionError: the hook is not implemented
    | UndefinedName   // NameError: a reference to a name that does not exist
    | HostRaised      // an exception from host code: `str()` or `copy.copy` of an object

  datatype Outcome<T> = Ok(value: T) | Fail(error: Error)

  /** A host object. Two `Obj` values are equal exactly when they are the same
      object, so `==` here is Python's `is`; Python's `None` is `Option.None`. */
  datatype Obj = Obj(id: nat)

  /** The lifecycle tag of a data slot. */
  datatype State = Empty | Allocated | Computed

  /** What a validating filter does with one object: accept it, possibly
      replaced by another (or by `None`), or raise. */
  datatype Verdict = Accept(value: Option<Obj>) | Reject

  /** The `filter` hook of a node's class: abstract (raises
      AbstractFunctionError, so the raw data is kept) or overridden. */
  datatype Filter = AbstractFilter | Validating(check: Obj -> Verdict)

  /** `filter(x)` with the AbstractFunctionError fallback of the data setter. */
  function Filtered(f: Filter, x: Obj): (r: Outcome<Option<Obj>>)
    // an abstract filter keeps the raw object
    ensures f.AbstractFilter? ==> r == Ok(Some(x))
    // an overridden filter fails exactly when it rejects, else yields its result
    ensures f.Validating? ==> (r.Fail? <==> f.check(x).Reject?)
    ensures f.Validating? && r.Ok? ==> r.value == f.check(x).value
    ensures r.Fail? ==> r.error == FilterRejected
  {
    match f
    case AbstractFilter => Ok(Some(x))
    case Validating(check) =>
      match check(x)
      case Accept(y) => Ok(y)
      case Reject => Fail(FilterRejected)
  }

  // ---------------------------------------------------------------------
  // Role: the node is the `index`-th output of `owner`
  // ---------------------------------------------------------------------

  datatype Role<O> = Role(owner: O, index: int)

  /** The role setter applied to the current role `cur`: the new role, or the
      error raised. Owners are compared by identity, indices by value. */
  function BindRole<O(==)>(cur: Option<Role<O>>, r: Role<O>): (res: Outcome<Option<Role<O>>>)
    // it succeeds exactly when the node is unbound or already bound to `r` ...
    ensures res.Ok? <==> (cur.None? || cur == Some(r))
    // ... and then the node is bound to exactly `r`
    ensures res.Ok? ==> res.value == Some(r)
    // a different owner is reported before a different index
    ensures cur.Some? && cur.value.owner != r.owner ==> res == Fail(AlreadyOwned)
    ensures cur.Some? && cur.value.owner == r.owner && cur.value.index != r.index ==>
              res == Fail(DifferentIndex)
  {
    match cur
    case None => Ok(Some(r))
    case Some(c) =>
      if c.owner != r.owner then Fail(AlreadyOwned)
      else if c.index != r.index then Fail(DifferentIndex)
      else Ok(cur)
  }

  /** A caller that tries the role assignments `rs` in order, catching each
      error and carrying on. */
  function BindAll<O(==)>(cur: Option<Role<O>>, rs: seq<Role<O>>): Option<Role<O>>
    decreases |rs|
  {
    if rs == [] then cur
    else
      var next := match BindRole(cur, rs[0]) case Ok(b) => b case Fail(_) => cur;
      BindAll(next, rs[1..])
  }

  /** Re-applying a role assignment that succeeded succeeds again and changes
      nothing. */
  lemma RebindIsNoOp<O>(cur: Option<Role<O>>, r: Role<O>)
    requires BindRole(cur, r).Ok?
    ensures BindRole(BindRole(cur, r).value, r) == BindRole(cur, r)
  {
  }

  /** The role is write-once: whatever is attempted afterwards, a bound role
      stays as it is, and an unbound node ends up with the first role tried. */
  lemma {:induction false} RoleIsWriteOnce<O>(cur: Option<Role<O>>, rs: seq<Role<O>>)
    ensures cur.Some? ==> BindAll(cur, rs) == cur
    ensures cur.None? && rs != [] ==> BindAll(cur, rs) == Some(rs[0])
    decreases |rs|
  {
    if rs != [] {
      var next := match BindRole(cur, rs[0]) case Ok(b) => b case Fail(_) => cur;
      assert next.Some?;
      RoleIsWriteOnce(next, rs[1..]);
    }
  }

  // ---------------------------------------------------------------------
  // Data slot
  // ---------------------------------------------------------------------

  /** The stored datum and the lifecycle tag. */
  datatype Slot = Slot(data: Option<Obj>, state: State)

  /** The slot of a newly constructed node. */
  const Fresh := Slot(None, Empty)

  /** The data setter applied to slot `s` with value `v`: the new slot, or the
      error the filter raised (the slot is then left as it was). */
  function AssignData(f: Filter, s: Slot, v: Option<Obj>): (r: Outcome<Slot>)
    // re-assigning the object already held is a no-op, whatever the filter
    ensures v == s.data ==> r == Ok(s)
    // assigning None over something else clears the slot
    ensures v.None? && v != s.data ==> r == Ok(Slot(None, Empty))
    // with an abstract filter, any other object is stored as given
    ensures v.Some? && v != s.data && f.AbstractFilter? ==> r == Ok(Slot(v, Computed))
    // only an overridden filter can make the assignment fail
    ensures r.Fail? ==> f.Validating? && r.error == FilterRejected && v.Some? && v != s.data
    // with an overridden filter, the assignment fails exactly when the filter
    // rejects, and otherwise stores the filter's result as Computed
    ensures f.Validating? && v.Some? && v != s.data ==>
              (r.Fail? <==> f.check(v.value).Reject?) &&
              (r.Ok? ==> r.value == Slot(f.check(v.value).value, Computed))
    // a filtered store always ends Computed
    ensures r.Ok? && v.Some? && v != s.data ==> r.value.state == Computed
    // the setter never puts a slot into the Allocated state
    ensures r.Ok? && r.value.state == Allocated ==> r.value == s
  {
    if v == s.data then Ok(s)
    else if v.None? then Ok(Slot(None, Empty))
    else
      match Filtered(f, v.value)
      case Ok(d) => Ok(Slot(d, Computed))
      case Fail(e) => Fail(e)
  }

  /** A caller that assigns the values `vs` in order, catching filter errors. */
  function AssignAll(f: Filter, s: Slot, vs: seq<Option<Obj>>): Slot
    decreases |vs|
  {
    if vs == [] then s
    else
      var next := match AssignData(f, s, vs[0]) case Ok(t) => t case Fail(_) => s;
      AssignAll(f, next, vs[1..])
  }

  /** Assigning the same value twice has the effect of assigning it once,
      where the first assignment stored `v` itself (always so under an abstract
      filter): the second then hits the identity check. A filter that wraps
      its argument in a new object on every call is not covered. */
  lemma AssignIsIdempotent(f: Filter, s: Slot, v: Option<Obj>)
    requires AssignData(f, s, v).Ok?
    requires f.AbstractFilter? || AssignData(f, s, v).value.data == v
    ensures AssignData(f, AssignData(f, s, v).value, v) == AssignData(f, s, v)
  {
  }

  /** A slot whose tag agrees with its content: Computed exactly when it holds
      an object, and never Allocated. */
  ghost predicate Coherent(s: Slot) {
    s.state != Allocated && (s.state == Computed <==> s.data.Some?)
  }

  /** Under an abstract filter (the case of PythonResult) a coherent slot stays
      coherent through any sequence of assignments and holds the last value
      assigned. In particular assigning None then always yields an Empty slot. */
  lemma {:induction false} AbstractSlotHoldsLastAssignment(s: Slot, vs: seq<Option<Obj>>)
    requires Coherent(s)
    ensures Coherent(AssignAll(AbstractFilter, s, vs))
    ensures vs != [] ==> AssignAll(AbstractFilter, s, vs).data == vs[|vs| - 1]
    decreases |vs|
  {
    if vs != [] {
      var next := AssignData(AbstractFilter, s, vs[0]).value;
      assert Coherent(next) && next.data == vs[0];
      AbstractSlotHoldsLastAssignment(next, vs[1..]);
      if |vs| > 1 {
        assert vs[1..][|vs[1..]| - 1] == vs[|vs| - 1];
      }
    }
  }

  /** Assigning None yields an Empty slot from a coherent one; from an
      incoherent one (Computed or Allocated with no object) the identity check
      comes first and the tag is kept. */
  lemma AssignNoneToCoherent(f: Filter, s: Slot)
    requires Coherent(s)
    ensures AssignData(f, s, None) == Ok(Fresh)
  {
  }
}

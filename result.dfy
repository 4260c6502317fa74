/** The `Result` value node of gof/result.py: an input or output of an Op,
    with a write-once role, a filtered data slot with a lifecycle tag, and a
    name; and its concrete subclass `PythonResult`. */
module Results {
  import opened Lifecycle
  import Decimal

  /** The class a node is an instance of. `Generic` is `Result` itself or a
      subclass that overrides at most `filter`; `Python` is `PythonResult`,
      which keeps the abstract filter. */
  datatype Kind = Generic(filter: Filter) | Python

  function FilterOf(k: Kind): Filter {
    if k.Python? then AbstractFilter else k.filter
  }

  /** An argument given to the name setter: None, a string, or anything else. */
  datatype NameArg = NoName | Text(text: string) | NotText(obj: Obj)

  /** The owner of a result, as far as a result sees it: its class as `%s`
      renders it, and its list of outputs. */
  class Op {
    const className: string
    var outputs: seq<Result>

    constructor (className: string, outputs: seq<Result>)
      ensures this.className == className && this.outputs == outputs
    {
      this.className := className;
      this.outputs := outputs;
    }
  }

  /** Position of the first element of `s` that is `x`, as `list.index` finds
      it with an identity `__eq__`; None where `list.index` raises. */
  function IndexOf(s: seq<Result>, x: Result): (r: Option<nat>)
    ensures r.None? <==> x !in s
    ensures r.Some? ==> r.value < |s| && s[r.value] == x
    ensures r.Some? ==> forall j :: 0 <= j < r.value ==> s[j] != x
    decreases |s|
  {
    if s == [] then None
    else if s[0] == x then Some(0)
    else match IndexOf(s[1..], x)
      case None => None
      case Some(k) => Some(k + 1)
  }

  /** What a call into host code gives back: a value, or an exception. */
  datatype HostResult<T> = Returned(value: T) | Raises

  /** `str(d)` for a datum, given how the host renders objects; `str(None)`
      is `"None"`, and an object's `__str__` may raise. */
  function ShowData(show: Obj -> HostResult<string>, d: Option<Obj>): (r: HostResult<string>)
    ensures d.None? ==> r == Returned("None")
  {
    if d.None? then Returned("None") else show(d.value)
  }

  /** Python truthiness of an optional string. */
  predicate Truthy(n: Option<string>) {
    n.Some? && n.value != ""
  }

  class Result {
    const kind: Kind
    var role: Option<Role<Op>>
    var data: Option<Obj>
    var state: State
    var explicitName: Option<string>

    /** The objects the derived name depends on: the owner, if any. */
    function OwnerFrame(): set<Op>
      reads this
    {
      if role.Some? then {role.value.owner} else {}
    }

    function Storage(): Slot
      reads this
    {
      Slot(data, state)
    }

    /** `Result.__init__` once the name has been accepted: the role, if given,
        is bound by the role setter, which on a new node just stores it. */
    constructor (kind: Kind, role: Option<Role<Op>>, name: Option<string>)
      ensures this.kind == kind && this.role == role && explicitName == name
      ensures Storage() == Fresh
    {
      this.kind := kind;
      this.role := None;
      data := None;
      state := Empty;
      explicitName := name;
      new;
      if role.Some? {
        // the role setter on an unbound node stores the pair and cannot fail
        assert BindRole(None, role.value) == Ok(role);
        this.role := role;
      }
    }

    // ------------------------------------------------------------------
    // role, owner, index
    // ------------------------------------------------------------------

    /** The error actually raised when the role setter reports `e`: its
        message formats the node with `%s`, that is `__str__`, and an error
        raised there (a name that cannot be derived, or a datum whose `str`
        raises) is raised first. */
    function Raised(e: Error, show: Obj -> HostResult<string>): (r: Error)
      reads this, OwnerFrame()
      ensures Str(show).Ok? ==> r == e
      ensures Name().Fail? ==> r == NotAnOutput
      ensures Name().Ok? && Str(show).Fail? ==> r == HostRaised
    {
      if Str(show).Fail? then Str(show).error else e
    }

    /** The role setter: write-once, or match the role already bound. */
    method SetRole(owner: Op, index: int, show: Obj -> HostResult<string>) returns (r: Outcome<()>)
      modifies this`role
      ensures match BindRole(old(role), Role(owner, index))
              case Ok(b) => r.Ok? && role == b
              case Fail(e) => r == Fail(Raised(e, show)) && role == old(role)
      ensures old(role) == Some(Role(owner, index)) ==> r.Ok? && role == old(role)
      ensures r.Ok? ==> Owner() == Some(owner) && Index() == Some(index)
    {
      if role.Some? {
        var current := role.value;
        if current.owner != owner {
          return Fail(Raised(AlreadyOwned, show));
        }
        if current.index != index {
          return Fail(Raised(DifferentIndex, show));
        }
        return Ok(());
      }
      role := Some(Role(owner, index));
      r := Ok(());
    }

    function Owner(): (o: Option<Op>)
      reads this
      ensures o.None? <==> role.None?
      ensures o.Some? ==> o.value == role.value.owner
    {
      if role.None? then None else Some(role.value.owner)
    }

    function Index(): (i: Option<int>)
      reads this
      ensures i.None? <==> role.None?
      ensures i.Some? ==> i.value == role.value.index
    {
      if role.None? then None else Some(role.value.index)
    }

    // ------------------------------------------------------------------
    // data
    // ------------------------------------------------------------------

    /** The data setter: identity no-op, None clears, anything else goes
        through the class's filter and is stored as Computed. */
    method SetData(v: Option<Obj>) returns (r: Outcome<()>)
      modifies this`data, this`state
      ensures match AssignData(FilterOf(kind), old(Storage()), v)
              case Ok(t) => r.Ok? && Storage() == t
              case Fail(e) => r == Fail(e) && Storage() == old(Storage())
    {
      if v == data {
        return Ok(());
      }
      if v.None? {
        data := None;
        state := Empty;
        return Ok(());
      }
      match Filtered(FilterOf(kind), v.value)
      case Fail(e) =>
        return Fail(e);
      case Ok(d) =>
        data := d;
        state := Computed;
        return Ok(());
    }

    // ------------------------------------------------------------------
    // name
    // ------------------------------------------------------------------

    /** The name getter: a truthy explicit name; otherwise, when bound,
        `"<owner class>.<position of self in owner.outputs>"`; otherwise None. */
    function Name(): (r: Outcome<Option<string>>)
      reads this, OwnerFrame()
      ensures Truthy(explicitName) ==> r == Ok(explicitName)
      ensures !Truthy(explicitName) && role.None? ==> r == Ok(None)
      ensures !Truthy(explicitName) && role.Some? ==>
                (r.Ok? <==> this in role.value.owner.outputs)
      // a name, when there is one, is never the empty string
      ensures r.Ok? && r.value.Some? ==> r.value.value != ""
      // the only error is the ValueError of `list.index`
      ensures r.Fail? ==> r.error == NotAnOutput
    {
      if Truthy(explicitName) then Ok(explicitName)
      else if role.Some? then
        match IndexOf(role.value.owner.outputs, this)
        case None => Fail(NotAnOutput)
        case Some(p) => Ok(Some(role.value.owner.className + "." + Decimal.Show(p)))
      else Ok(None)
    }

    /** The derived name of an unnamed bound node is its owner's class, a dot,
        and the position of the FIRST occurrence of the node in the owner's
        outputs (not the index stored in the role). */
    lemma DerivedName(p: nat)
      requires !Truthy(explicitName) && role.Some?
      requires p < |role.value.owner.outputs| && role.value.owner.outputs[p] == this
      requires forall j :: 0 <= j < p ==> role.value.owner.outputs[j] != this
      ensures Name() == Ok(Some(role.value.owner.className + "." + Decimal.Show(p)))
    {
    }

    /** The name setter: None or a string is stored verbatim, anything else
        raises TypeError and leaves the name as it was. */
    method SetName(n: NameArg) returns (r: Outcome<()>)
      modifies this`explicitName
      ensures n.NotText? ==> r == Fail(NameNotString) && explicitName == old(explicitName)
      ensures n.NoName? ==> r.Ok? && explicitName == None
      ensures n.Text? ==> r.Ok? && explicitName == Some(n.text)
    {
      if n.NotText? {
        return Fail(NameNotString);
      }
      explicitName := if n.Text? then Some(n.text) else None;
      r := Ok(());
    }

    // ------------------------------------------------------------------
    // string representation
    // ------------------------------------------------------------------

    /** `__str__`, given how the host renders objects. */
    function Str(show: Obj -> HostResult<string>): (r: Outcome<string>)
      reads this, OwnerFrame()
      ensures Name().Fail? ==> r == Fail(Name().error)
      ensures Name().Ok? && state == Computed && ShowData(show, data).Raises? ==>
                r == Fail(HostRaised)
      ensures Name().Ok? && Name().value.Some? && state == Computed &&
              ShowData(show, data).Returned? ==>
                r == Ok(Name().value.value + ":" + ShowData(show, data).value)
      ensures Name().Ok? && Name().value.Some? && state != Computed ==>
                r == Ok(Name().value.value)
      ensures Name().Ok? && Name().value.None? && state == Computed &&
              ShowData(show, data).Returned? ==>
                r == Ok(ShowData(show, data).value)
      ensures Name().Ok? && Name().value.None? && state != Computed ==> r == Ok("<?>")
    {
      match Name()
      case Fail(e) => Fail(e)
      case Ok(n) =>
        if Truthy(n) then
          if state == Computed then
            match ShowData(show, data)
            case Raises => Fail(HostRaised)
            case Returned(d) => Ok(n.value + ":" + d)
          else Ok(n.value)
        else if state == Computed then
          match ShowData(show, data)
          case Raises => Fail(HostRaised)
          case Returned(d) => Ok(d)
        else Ok("<?>")
    }

    /** `__repr__`: the name, or `"<?>"`. */
    function Repr(): (r: Outcome<string>)
      reads this, OwnerFrame()
      ensures r.Fail? <==> Name().Fail?
      ensures Name().Ok? && Name().value.Some? ==> r == Ok(Name().value.value)
      ensures Name().Ok? && Name().value.None? ==> r == Ok("<?>")
    {
      match Name()
      case Fail(e) => Fail(e)
      case Ok(n) => if Truthy(n) then Ok(n.value) else Ok("<?>")
    }

    /** `str` agrees with `repr` except that a Computed node also shows its
        data: after the name and a colon when it has a name, alone when not. */
    lemma StrExtendsRepr(show: Obj -> HostResult<string>)
      ensures Repr().Fail? <==> Name().Fail?
      ensures Str(show).Fail? <==>
                Name().Fail? || (state == Computed && ShowData(show, data).Raises?)
      ensures Name().Ok? && state != Computed ==> Str(show) == Repr()
      ensures Name().Ok? && Name().value.Some? && state == Computed &&
              ShowData(show, data).Returned? ==>
                Str(show) == Ok(Repr().value + ":" + ShowData(show, data).value)
      ensures Name().Ok? && Name().value.None? && state == Computed &&
              ShowData(show, data).Returned? ==>
                Str(show) == Ok(ShowData(show, data).value) && Repr() == Ok("<?>")
    {
    }

    // ------------------------------------------------------------------
    // identity
    // ------------------------------------------------------------------

    /** `__eq__`: `self is other`. */
    predicate Eq(other: Result)
      ensures Eq(other) <==> this == other
    {
      this == other
    }

    /** `__ne__`: `self is not other`, the negation of `__eq__`. */
    predicate Ne(other: Result)
      ensures Ne(other) <==> !Eq(other)
    {
      this != other
    }

    // ------------------------------------------------------------------
    // same_properties and __copy__
    // ------------------------------------------------------------------

    /** `same_properties` as written: PythonResult answers False; the base
        method refers to the undefined name `AbstractFunction`. */
    function SamePropertiesAsWritten(other: Result): (r: Outcome<bool>)
      ensures kind.Python? ==> r == Ok(false)
      ensures kind.Generic? ==> r == Fail(UndefinedName)
    {
      if kind.Python? then Ok(false) else Fail(UndefinedName)
    }

    /** `same_properties` with the base method raising AbstractFunctionError,
        like every other abstract hook of the class. */
    function SameProperties(other: Result): (r: Outcome<bool>)
      ensures r.Ok? <==> kind.Python?
      ensures r.Ok? ==> !r.value
      ensures r.Fail? ==> r.error == Unsupported
    {
      if kind.Python? then Ok(false) else Fail(Unsupported)
    }

    /** `__copy__`: unsupported on the base class; on PythonResult, a new
        unbound PythonResult named by this node's (possibly derived) name,
        holding a copy of the data. Computing the name, then copying the
        data, may raise. */
    method Copy(copyObj: Obj -> HostResult<Option<Obj>>) returns (r: Outcome<Result>)
      ensures kind.Generic? ==> r == Fail(Unsupported)
      ensures kind.Python? && Name().Fail? ==> r == Fail(Name().error)
      ensures kind.Python? && Name().Ok? && CopyData(copyObj, data).Raises? ==>
                r == Fail(HostRaised)
      ensures kind.Python? && Name().Ok? && CopyData(copyObj, data).Returned? ==>
                r.Ok? && fresh(r.value) && r.value.kind.Python? &&
                r.value.role.None? && r.value.explicitName == Name().value &&
                r.value.data == CopyData(copyObj, data).value &&
                (r.value.state == Computed <==> r.value.data.Some?) &&
                (r.value.state == Empty <==> r.value.data.None?)
    {
      if kind.Generic? {
        return Fail(Unsupported);
      }
      var n := Name();
      if n.Fail? {
        return Fail(n.error);
      }
      var copy := new Result(Python, None, n.value);
      match CopyData(copyObj, data)
      case Raises =>
        return Fail(HostRaised);
      case Returned(c) =>
        var stored := copy.SetData(c);
        r := Ok(copy);
    }
  }

  /** `copy.copy(d)`: `copy.copy(None)` is None; for an object, whatever the
      host's copy gives back, which may be another object, None, or an
      exception. */
  function CopyData(copyObj: Obj -> HostResult<Option<Obj>>, d: Option<Obj>): (c: HostResult<Option<Obj>>)
    ensures d.None? ==> c == Returned(None)
    ensures d.Some? ==> c == copyObj(d.value)
  {
    if d.None? then Returned(None) else copyObj(d.value)
  }

  /** `Result(role, name)` / `PythonResult(role, name)`: the name setter
      rejects a name that is neither None nor a string. */
  method New(kind: Kind, role: Option<Role<Op>>, name: NameArg) returns (r: Outcome<Result>)
    ensures name.NotText? ==> r == Fail(NameNotString)
    ensures !name.NotText? ==>
              r.Ok? && fresh(r.value) && r.value.kind == kind && r.value.role == role &&
              r.value.explicitName == (if name.Text? then Some(name.text) else None) &&
              r.value.Storage() == Fresh
  {
    if name.NotText? {
      return Fail(NameNotString);
    }
    var node := new Result(kind, role, if name.Text? then Some(name.text) else None);
    r := Ok(node);
  }

  /** `python_result(data, role=..., name=...)`: a new PythonResult holding
      `data`, Computed exactly when `data` is not None. */
  method PythonResultOf(d: Option<Obj>, role: Option<Role<Op>>, name: NameArg)
    returns (r: Outcome<Result>)
    ensures name.NotText? ==> r == Fail(NameNotString)
    ensures !name.NotText? ==>
              r.Ok? && fresh(r.value) && r.value.kind.Python? && r.value.role == role &&
              r.value.explicitName == (if name.Text? then Some(name.text) else None) &&
              r.value.data == d && (r.value.state == if d.Some? then Computed else Empty)
  {
    r := New(Python, role, name);
    if r.Ok? {
      var stored := r.value.SetData(d);
    }
  }

  /** The base `same_properties` raises NameError where AbstractFunctionError
      is meant, so a caller probing the capability does not see "unsupported". */
  lemma BaseSamePropertiesRaisesNameError(a: Result, b: Result)
    requires a.kind.Generic?
    ensures a.SamePropertiesAsWritten(b) == Fail(UndefinedName)
    ensures a.SameProperties(b) == Fail(Unsupported)
  {
  }

  /** Equality of nodes is identity: two distinct nodes are unequal even when
      every field agrees. It holds by the definition of `Eq` and `Ne`; the
      requirements on the fields only spell out the case it is about. */
  lemma DistinctNodesAreUnequal(a: Result, b: Result)
    requires a != b
    requires a.kind == b.kind && a.role == b.role && a.Storage() == b.Storage()
    requires a.explicitName == b.explicitName
    ensures !a.Eq(b) && a.Ne(b)
  {
  }

  /** Two distinct outputs of one owner that both lack an explicit name get
      different derived names: the position part tells them apart. */
  lemma DerivedNamesAreDistinct(a: Result, b: Result)
    requires a != b
    requires !Truthy(a.explicitName) && !Truthy(b.explicitName)
    requires a.role.Some? && b.role.Some? && a.role.value.owner == b.role.value.owner
    requires a.Name().Ok? && b.Name().Ok?
    ensures a.Name() != b.Name()
  {
    var o := a.role.value.owner;
    var p := IndexOf(o.outputs, a).value;
    var q := IndexOf(o.outputs, b).value;
    if a.Name() == b.Name() {
      var k := |o.className| + 1;
      var na := o.className + "." + Decimal.Show(p);
      var nb := o.className + "." + Decimal.Show(q);
      assert na == nb;
      assert na[k..] == Decimal.Show(p);
      assert nb[k..] == Decimal.Show(q);
      Decimal.ShowInjective(p, q);
      assert false;
    }
  }
}

# Result value nodes of a dataflow graph

This project models `gof/result.py`. That file defines `Result`, the value node that sits on the inputs and outputs of an `Op` in the operator graph. It also defines `PythonResult`, its concrete subclass for arbitrary host objects.

A node has four parts:

- a **role** `(owner, index)`, which is write-once: it can be re-bound only to the same owner and an equal index;
- a **data slot** with a lifecycle tag `Empty | Allocated | Computed`, written through the class's `filter` hook;
- a **name**, stored explicitly or derived from the owner;
- an **identity** that alone decides equality.

Three files:

- `lifecycle.dfy` (module `Lifecycle`): the role rule and the data-slot rule as pure functions. It also holds lemmas about sequences of assignments: the role is write-once, and under an abstract filter the slot tracks the last value assigned.
- `result.dfy` (module `Results`): the `Result` class.
  - Its setters change `role`, `data`/`state` and `explicitName` in place. `SetRole` and `SetData` are proved against the pure rules of `lifecycle.dfy`; `SetName` states its effect directly.
  - The getters (`Owner`, `Index`, `Name`, `Str`, `Repr`, `Eq`) are functions.
  - The file also has `same_properties`, `__copy__` and the `python_result` factory.
  - `Op` is modelled only as far as a node sees it: a class name and a list of outputs.
- `decimal.dfy` (module `Decimal`): the `"%i"` rendering of the position in a derived name, with its inverse.

Modelling choices:

- Python `is` on host objects is `==` on `Obj`, which carries an identity number. Python `None` is `Option.None`.
- The owner is an `Op` reference, so owner identity is reference equality.
- The filter hook is a parameter of the node's class (`Kind`). It is either abstract, in which case the raw value is kept, or a function that accepts a value (possibly replaced, possibly by `None`) or rejects it.
- Exceptions are `Outcome.Fail` values with an `Error` tag.
- Three host behaviours are parameters: `str()` of a host object (`show`), `copy.copy` of a host object (`copyObj`), and `%s` of the owner's class (`Op.className`). The first two may raise (`HostResult.Raises`, which becomes the error `HostRaised`), and `copy.copy` may give back any object or `None`.

Behaviours of the code that the model keeps, even where they are easy to misread:

- Assigning `None` to a node that already holds `None` is a no-op that keeps the tag. The identity check runs before the `None` check (gof/result.py:145-150). So a node left `Allocated`, or `Computed` with a filter result of `None`, stays that way. `Lifecycle.AssignNoneToCoherent` shows that `None` always empties a slot whose tag agrees with its content.
- `PythonResult.__copy__` passes `self.name`, which is the getter, to the new node (gof/result.py:349). The copy's explicit name is therefore the original's displayed name, including a derived `"<class>.<pos>"`. The copy raises when that name cannot be derived.
- `PythonResult` does not override `filter`, so its data passes through unfiltered.
- The role setter's error messages format the node with `%s`, which calls `__str__` (gof/result.py:100, 102). When the node is unnamed and missing from its owner's outputs, the `ValueError` from `list.index` is raised instead. When the node is `Computed` and `str()` of its data raises, that exception is raised instead (`Result.Raised`).
- An unnamed, unbound node's name is `None`, not a placeholder.

## Model

| member | source | states |
|---|---|---|
| `Lifecycle.Filtered` | gof/result.py:151-172 | An abstract `filter` (AbstractFunctionError) keeps the raw object. An overridden one fails exactly when it rejects the object and otherwise yields its result, which may be another object or `None`. |
| `Lifecycle.BindRole` | gof/result.py:94-107 | Binding succeeds exactly when the node is unbound or already bound to the same owner (identity) and equal index, and the node is then bound to exactly that pair. A different owner raises "already has an owner" before the index is compared. The same owner with another index raises "different index". |
| `Lifecycle.RebindIsNoOp` | gof/result.py:96-103 | Repeating a role assignment that succeeded succeeds again and leaves the role as it is. |
| `Lifecycle.RoleIsWriteOnce` | gof/result.py:94-107 | Over any sequence of role assignments whose errors are caught: a bound role never changes, and an unbound node ends bound to the first role tried. |
| `Lifecycle.AssignData` | gof/result.py:141-172 | Assigning the object already held is a no-op whatever the filter. Assigning `None` over something else empties the slot. Under an abstract filter any other object is stored as `Computed`. Under an overridden filter the assignment fails exactly when the filter rejects, and otherwise stores the filter's result as `Computed`. Only an overridden filter can fail. The setter never produces `Allocated`. |
| `Lifecycle.AssignIsIdempotent` | gof/result.py:141-156 | When the first assignment stored the value itself (always so under an abstract filter), assigning it a second time hits the identity check and has no further effect. |
| `Lifecycle.AbstractSlotHoldsLastAssignment` | gof/result.py:141-172 | Under the abstract filter, a slot whose tag agrees with its content (Computed exactly when it holds an object, never Allocated) keeps agreeing through any sequence of assignments and holds the last value assigned. |
| `Lifecycle.AssignNoneToCoherent` | gof/result.py:145-150 | From a coherent slot, assigning `None` yields data `None` and state `Empty`. |
| `Decimal.Show` | gof/result.py:270 | The `%i` rendering of a position is a non-empty string of decimal digits with no leading zero. |
| `Decimal.ParseShow` | gof/result.py:270 | The rendered position reads back as the same number. |
| `Decimal.ShowInjective` | gof/result.py:270 | Distinct positions render to distinct strings. |
| `Results.IndexOf` | gof/result.py:270 | `owner.outputs.index(self)` under identity equality gives the first position holding the node. It is `None` exactly when the node is not in the list. |
| `Results.Result.constructor` | gof/result.py:59-66 | A new node has the given class, role and name, data `None` and state `Empty`. A supplied role is bound through the role setter, which on an unbound node stores the pair and cannot fail. |
| `Results.New` | gof/result.py:59-66 | Construction fails with `TypeError` exactly when the name is neither `None` nor a string. Otherwise it yields a fresh node with the given role and name, data `None` and state `Empty`. |
| `Results.Result.Raised` | gof/result.py:100-102 | The error raised by the role setter is the one it reports when `__str__` of the node succeeds. When the name cannot be derived it is the `ValueError` of `list.index`. When the name can be derived but `str()` of the data raises, it is that host exception. |
| `Results.Result.SetRole` | gof/result.py:94-107 | The new role and the error follow `BindRole`, with the error replaced by the error of `__str__` when formatting the message raises. A failed or identical re-binding leaves the role unchanged. After success, `Owner` and `Index` return the owner and index given. Only the role field may change. |
| `Results.Result.Owner` | gof/result.py:115-117 | `None` exactly when the role is unset, otherwise the role's owner. |
| `Results.Result.Index` | gof/result.py:126-128 | `None` exactly when the role is unset, otherwise the role's index. |
| `Results.Result.SetData` | gof/result.py:141-172 | The new data and state are those given by `AssignData` under the node's class filter. A filter error leaves them unchanged. Role and name cannot change. |
| `Results.Result.Name` | gof/result.py:266-272 | A truthy explicit name is returned as is. An unnamed, unbound node has no name. An unnamed, bound node has a name exactly when it occurs in its owner's outputs, and raises otherwise. The only error is the `ValueError` of `list.index`. A name is never the empty string. |
| `Results.DerivedNamesAreDistinct` | gof/result.py:266-272 | Two distinct outputs of the same owner that both lack an explicit name get different derived names. |
| `Results.Result.DerivedName` | gof/result.py:266-272 | An unnamed, bound node is named by its owner's class, a dot and the position of its first occurrence in the owner's outputs, not by its stored index. |
| `Results.Result.SetName` | gof/result.py:273-276 | `None` or a string is stored verbatim. Anything else raises `TypeError` and leaves the name unchanged. Only the name field may change. |
| `Results.Result.Str` | gof/result.py:286-296 | A failing name getter makes `__str__` raise its error. Otherwise, in order: name, colon and `str` of the data when named and `Computed`; the name when named and not `Computed`; `str` of the data when unnamed and `Computed`; and `"<?>"` otherwise. When `str` of the data is needed and raises, `__str__` raises that exception. |
| `Results.Result.Repr` | gof/result.py:298-299 | `__repr__` fails exactly when the name getter does. Otherwise it is the name, or `"<?>"` when there is none. |
| `Results.Result.StrExtendsRepr` | gof/result.py:286-299 | `repr` fails exactly when the name does; `str` fails exactly when the name does or when the node is `Computed` and `str` of its data raises. A node that is not `Computed` prints as its `repr` (name or `"<?>"`). A named `Computed` node prints as name, colon, data. An unnamed `Computed` node prints its data alone. |
| `Results.Result.Eq` | gof/result.py:75-76 | `__eq__` holds exactly when the two nodes are the same object. |
| `Results.Result.Ne` | gof/result.py:78-79 | `__ne__` is the negation of `__eq__`. |
| `Results.DistinctNodesAreUnequal` | gof/result.py:75-79 | Two distinct nodes are unequal under `__eq__` and `__ne__`, even when kind, role, data, state and name all agree. |
| `Results.Result.SamePropertiesAsWritten` | gof/result.py:306-308 | As written: `PythonResult` answers `False`, and the base method raises `NameError`. |
| `Results.Result.SameProperties` | gof/result.py:306-308 | Corrected: `PythonResult` answers `False`, and every other class reports the hook as unsupported (`AbstractFunctionError`). |
| `Results.BaseSamePropertiesRaisesNameError` | gof/result.py:306-308 | On a base-class node, the as-written method raises `NameError` where the corrected one reports "unsupported". |
| `Results.CopyData` | gof/result.py:350 | `copy.copy(None)` is `None` and cannot raise; `copy.copy` of an object is whatever the host's copy gives back or raises. |
| `Results.Result.Copy` | gof/result.py:348-351 | The base class raises `AbstractFunctionError`. For `PythonResult`, a name that cannot be derived makes the copy raise that error, and otherwise an exception from `copy.copy` of the data is raised. Otherwise the copy is a fresh, unbound `PythonResult` whose explicit name is the original's displayed name and whose data is the copied data. Its state is `Computed` exactly when that data is not `None`, and `Empty` otherwise. |
| `Results.PythonResultOf` | gof/result.py:353-356 | `python_result(d, ...)` fails on a bad name. Otherwise it yields a fresh `PythonResult` with the given role and name, data `d`, and state `Computed` when `d` is not `None` and `Empty` when it is. |

## Findings

| source | as written | input that shows it | evidently intended | confidence | as-written member | corrected member |
|---|---|---|---|---|---|---|
| gof/result.py:308 | The base `same_properties` raises `AbstractFunction()`, a name defined nowhere, so the call raises `NameError`. | Any node of a class that does not override `same_properties`, such as a plain `Result`. | Raise `AbstractFunctionError`, as every other abstract hook of the class does, so that callers see "unsupported". | high; not executed | `Results.Result.SamePropertiesAsWritten` | `Results.Result.SameProperties` |

## Left out

- The C code-generation hooks are not modelled: `c_is_simple`, `c_literal`, `c_declare`, `c_extract`, `c_cleanup`, `c_sync`, `c_compile_args`, `c_headers`, `c_libraries`, `c_support_code` and `PythonResult`'s C templates. They return C source text whose meaning is CPython reference counting at run time, which is outside this model.
- `__hash__`, `utils.hashgen`, `__cmp__` and `desc` are not modelled. They depend on `id()` and a helper that `utils` provides, and `utils` is not part of this model. Equality is modelled as identity (`Eq`, `Ne`).
- Exception messages are not modelled; only the kind of error raised is.
- `str()` of a host object, `copy.copy` of a host object and `%s` of the owner's class are opaque parameters. The model does not say what they compute, only that the first two may raise. Which exception they raise is one error, `HostRaised`.
- A role argument that is not a pair is not modelled. The model's role is a typed `(owner, index)` pair, so the unpacking error at gof/result.py:95 cannot occur.
- Every exception a subclass's `filter` may raise is one `FilterRejected` error. Whether `filter` was called is not observable in the model. Instead, `AssignData` states that an identical assignment has the same result under any filter.
- The `Allocated` state is never set by this file. Outside code may set the public `state` field; the model keeps that field public and proves only that the data setter never produces `Allocated`.
- `StateError` is declared but never raised, so it is not modelled.
- Classes are the two `Kind`s: a base `Result` (optionally with an overriding `filter`) and `PythonResult`. Subclasses of `PythonResult`, which `__copy__` would copy as plain `PythonResult`, are not modelled.
- `Results.Result.Copy`: the copy's data is what `copyObj` gives back for the original's data. The model does not capture that `copy.copy` yields an independently mutable object.
- `Lifecycle.AssignIsIdempotent`: an overridden `filter` is modelled as one fixed function from objects to verdicts, so a filter that returns a newly allocated wrapper on each call is not captured; the lemma is stated only where the first assignment stored the value itself, which a second assignment then meets at the identity check.

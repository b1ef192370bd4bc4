/**
 * The user directory: a fixed table from a handle to an internal id and a
 * credit balance (index.js:27). It is never changed while the server runs.
 */
module Users {

  import opened Wrappers

  datatype User = User(id: int, credits: int)

  /** The two mock users of the table. */
  const Table: map<string, User> :=
    map["neonhacker" := User(1, 1000), "cybershadow" := User(2, 1000)]

  /**
   * The user a handle names, if any. This is the lookup the handlers are
   * meant to perform: only the table's own entries are users.
   */
  function Lookup(handle: string): (r: Option<User>)
    ensures r.Some? <==> handle == "neonhacker" || handle == "cybershadow"
    ensures r.Some? ==> r.value.credits == 1000
    ensures r.Some? ==> r.value.id == (if handle == "neonhacker" then 1 else 2)
  {
    if handle in Table then Some(Table[handle]) else None
  }

  // ---------------------------------------------------------------------
  // The guard as written: `users[owner]` reads a property of a plain
  // JavaScript object, and every such object inherits the members of
  // Object.prototype. Those members are functions or objects, so they are
  // truthy and pass the `!users[owner]` test.
  // ---------------------------------------------------------------------

  /** The names every plain JavaScript object inherits from Object.prototype. */
  const ObjectPrototypeMembers: set<string> :=
    {"constructor", "hasOwnProperty", "isPrototypeOf", "propertyIsEnumerable",
     "toString", "toLocaleString", "valueOf", "__proto__",
     "__defineGetter__", "__defineSetter__", "__lookupGetter__", "__lookupSetter__"}

  /** What the property read `users[handle]` yields. */
  datatype PropertyValue = OwnUser(user: User) | Inherited | Undefined

  /** `users[handle]` as JavaScript evaluates it. */
  function PropertyLookup(handle: string): (v: PropertyValue)
    ensures v.OwnUser? <==> handle in Table
    ensures v.Inherited? <==> handle !in Table && handle in ObjectPrototypeMembers
  {
    if handle in Table then OwnUser(Table[handle])
    else if handle in ObjectPrototypeMembers then Inherited
    else Undefined
  }

  /** The guard `!users[handle]` lets the request through exactly when this holds. */
  predicate PassesGuardAsWritten(handle: string): (passes: bool)
    ensures passes <==> Lookup(handle).Some? || handle in ObjectPrototypeMembers
  {
    !PropertyLookup(handle).Undefined?
  }

  /** The as-written guard admits the handle "toString", which names no user. */
  lemma InheritedHandlePassesGuard()
    ensures PassesGuardAsWritten("toString") && Lookup("toString").None?
  {
  }

  /**
   * The as-written guard and the intended lookup disagree on exactly the
   * inherited member names; on every other handle they agree.
   */
  lemma GuardDiffersOnlyOnInheritedNames(handle: string)
    ensures PassesGuardAsWritten(handle) && Lookup(handle).None? <==> handle in ObjectPrototypeMembers
    ensures Lookup(handle).Some? ==> PassesGuardAsWritten(handle) && PropertyLookup(handle) == OwnUser(Lookup(handle).value)
  {
    assert "neonhacker" !in ObjectPrototypeMembers && "cybershadow" !in ObjectPrototypeMembers;
  }
}

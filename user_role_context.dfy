/** The role store of `client/src/contexts/UserRoleContext.tsx`: the operator's role,
    read from and written back to browser storage, and the capability flags derived
    from it. `USER_ROLES` comes from a schema module that is not part of this model;
    it is a parameter here, required to list "Admin" and "Manager". */
module UserRoleContext {
  import opened Wrappers

  /** The storage key the role is persisted under. */
  const StorageKey: string := "userRole"

  /** The role used when storage holds nothing usable. */
  const DefaultRole: string := "Admin"

  const MissingProviderError: string := "useUserRole must be used within a UserRoleProvider"

  predicate WellFormedRoles(roles: seq<string>)
  {
    "Admin" in roles && "Manager" in roles
  }

  /** The lazy initializer of the role state: the stored value when it is a non-empty
      member of `roles`, otherwise the default. */
  function InitialRole(roles: seq<string>, storage: map<string, string>): (r: string)
    ensures WellFormedRoles(roles) ==> r in roles
    ensures r == DefaultRole || (StorageKey in storage && storage[StorageKey] == r)
    ensures (StorageKey in storage && storage[StorageKey] != "" && storage[StorageKey] in roles) ==>
              r == storage[StorageKey]
  {
    if StorageKey in storage && storage[StorageKey] != "" && storage[StorageKey] in roles
    then storage[StorageKey]
    else DefaultRole
  }

  /** A missing, empty or unknown stored value falls back to "Admin". */
  lemma InitialRoleFallback(roles: seq<string>, storage: map<string, string>)
    requires StorageKey !in storage || storage[StorageKey] == "" || storage[StorageKey] !in roles
    ensures InitialRole(roles, storage) == "Admin"
  {
  }

  predicate IsAdmin(role: string)
  {
    role == "Admin"
  }

  predicate IsManager(role: string)
  {
    role == "Manager"
  }

  predicate CanViewRevenue(role: string)
  {
    role == "Admin" || role == "Manager"
  }

  /** The flags never contradict each other, and revenue is visible exactly to the
      two privileged roles. */
  lemma FlagsConsistent(role: string)
    ensures !(IsAdmin(role) && IsManager(role))
    ensures CanViewRevenue(role) <==> IsAdmin(role) || IsManager(role)
  {
  }

  /** What the provider hands to its consumers (the setter is the `SetRole` method). */
  datatype RoleContextValue = RoleContextValue(
    role: string,
    canViewRevenue: bool,
    isAdmin: bool,
    isManager: bool)

  /** The context value of a role: the three flags agree with the role. */
  function ContextValue(role: string): (v: RoleContextValue)
    ensures v.role == role
    ensures v.isAdmin ==> v.canViewRevenue && !v.isManager
    ensures v.isManager ==> v.canViewRevenue && !v.isAdmin
    ensures v.canViewRevenue <==> v.isAdmin || v.isManager
    ensures v.isAdmin <==> IsAdmin(role)
    ensures v.isManager <==> IsManager(role)
    ensures v.canViewRevenue <==> CanViewRevenue(role)
  {
    RoleContextValue(role, CanViewRevenue(role), IsAdmin(role), IsManager(role))
  }

  /** `useUserRole`: the context value, or the error it throws outside a provider. */
  function UseUserRole(context: Option<RoleContextValue>): (r: Result<RoleContextValue, string>)
    ensures r.Ok? <==> context.Some?
    ensures r.Ok? ==> r.value == context.value
    ensures r.Err? ==> r.error == MissingProviderError
  {
    match context
    case Some(v) => Ok(v)
    case None => Err(MissingProviderError)
  }

  /** `UserRoleProvider`: the role state and the storage it persists to. */
  class UserRoleProvider {
    const roles: seq<string>
    var role: string
    var storage: map<string, string>

    /** The role is a known one and storage holds it. */
    ghost predicate Valid()
      reads this
    {
      role in roles && StorageKey in storage && storage[StorageKey] == role
    }

    /** Mounting the provider: the lazy initializer, then the persist effect's first run. */
    constructor(roles: seq<string>, storage: map<string, string>)
      requires WellFormedRoles(roles)
      ensures Valid()
      ensures this.roles == roles
      ensures role == InitialRole(roles, storage)
      ensures this.storage == storage[StorageKey := role]
    {
      this.roles := roles;
      role := InitialRole(roles, storage);
      this.storage := storage;
      new;
      PersistEffect();
    }

    /** The effect that writes the role to storage whenever it changes. */
    method PersistEffect()
      modifies this`storage
      ensures storage == old(storage)[StorageKey := role]
    {
      storage := storage[StorageKey := role];
    }

    /** `setRole`: update the state, write storage, and let the effect run again. */
    method SetRole(newRole: string)
      requires Valid()
      requires newRole in roles
      modifies this
      ensures Valid()
      ensures role == newRole
      ensures storage == old(storage)[StorageKey := newRole]
    {
      role := newRole;
      storage := storage[StorageKey := newRole];
      PersistEffect();
    }
  }

  /** A role set with `setRole` survives a restart: initializing from the storage it
      wrote yields it again (roles are non-empty strings, as the initializer demands). */
  lemma RestartRestoresRole(roles: seq<string>, storage: map<string, string>, r: string)
    requires r in roles && r != ""
    ensures InitialRole(roles, storage[StorageKey := r]) == r
  {
  }

  /** A provider that has been mounted and updated any number of times restores its
      role when the page is reloaded from its storage. */
  method Reload(p: UserRoleProvider) returns (q: UserRoleProvider)
    requires p.Valid() && WellFormedRoles(p.roles) && p.role != ""
    ensures q.Valid() && q.role == p.role && q.storage == p.storage
  {
    q := new UserRoleProvider(p.roles, p.storage);
    assert p.storage[StorageKey := p.role] == p.storage;
  }
}

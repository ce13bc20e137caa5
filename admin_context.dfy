/** The session store: which role is logged in (admin or usuario) and under which name,
    mirrored in memory and persisted under four keys of a device key-value store.
    Each storage call may throw; a sequence of writes that throws part-way leaves the
    earlier writes in place. */
module AdminContext {
  import opened Common

  const ADMIN_CODE_KEY := "@admin_code"
  const ADMIN_NAME_KEY := "@admin_name"
  const USUARIO_NAME_KEY := "@usuario_name"
  const MODO_KEY := "@modo"
  const ADMIN_CODE := "ADMIN2024"

  const ERROR_CODIGO := "Código incorrecto"
  const ERROR_GUARDAR := "Error al guardar sesión"

  datatype LoginResult = LoginResult(success: bool, error: Option<string>)

  /** `storage.getItem(key)`: null when the key is missing. */
  function Lookup(storage: map<string, string>, key: string): Option<string>
  {
    if key in storage then Some(storage[key]) else None
  }

  /** One call on the key-value store. */
  datatype StorageOp = SetItem(key: string, value: string) | RemoveItem(key: string)

  function ApplyOp(storage: map<string, string>, op: StorageOp): map<string, string>
  {
    match op
    case SetItem(k, v) => storage[k := v]
    case RemoveItem(k) => storage - {k}
  }

  /** The store after a sequence of awaited calls of which the first `okOps` succeed and the
      next one (if any) throws, ending the sequence. */
  function Perform(storage: map<string, string>, ops: seq<StorageOp>, okOps: nat): (r: map<string, string>)
    ensures okOps == 0 || ops == [] ==> r == storage
    decreases |ops|
  {
    if okOps == 0 || ops == [] then storage
    else Perform(ApplyOp(storage, ops[0]), ops[1..], okOps - 1)
  }

  lemma PerformStep(storage: map<string, string>, ops: seq<StorageOp>, okOps: nat)
    requires okOps > 0 && ops != []
    ensures Perform(storage, ops, okOps) == Perform(ApplyOp(storage, ops[0]), ops[1..], okOps - 1)
  {
  }

  /** The calls `login` makes for a correct code. */
  function AdminWrites(code: string, name: string): seq<StorageOp>
  {
    [SetItem(ADMIN_CODE_KEY, code), SetItem(ADMIN_NAME_KEY, OrElse(Some(name), "Admin")), SetItem(MODO_KEY, "admin")]
  }

  /** The calls `loginUsuario` makes. */
  function UsuarioWrites(name: string): seq<StorageOp>
  {
    [SetItem(USUARIO_NAME_KEY, OrElse(Some(name), "Usuario")), SetItem(MODO_KEY, "usuario")]
  }

  /** The calls `logout` makes. */
  const LOGOUT_REMOVALS := [RemoveItem(ADMIN_CODE_KEY), RemoveItem(ADMIN_NAME_KEY), RemoveItem(USUARIO_NAME_KEY), RemoveItem(MODO_KEY)]

  /** What `checkSession` restores from the store. */
  datatype Restored = AsAdmin(adminName: string) | AsUsuario(usuarioName: string) | Nothing

  function Restore(storage: map<string, string>): (r: Restored)
    ensures r.AsAdmin? <==>
      Lookup(storage, MODO_KEY) == Some("admin") && Lookup(storage, ADMIN_CODE_KEY) == Some(ADMIN_CODE)
      && Present(Lookup(storage, ADMIN_NAME_KEY))
    ensures r.AsUsuario? <==>
      Lookup(storage, MODO_KEY) == Some("usuario") && Present(Lookup(storage, USUARIO_NAME_KEY))
    ensures r.AsAdmin? ==> r.adminName != "" && Lookup(storage, ADMIN_NAME_KEY) == Some(r.adminName)
    ensures r.AsUsuario? ==> r.usuarioName != "" && Lookup(storage, USUARIO_NAME_KEY) == Some(r.usuarioName)
  {
    var modo := Lookup(storage, MODO_KEY);
    var code := Lookup(storage, ADMIN_CODE_KEY);
    var adminName := Lookup(storage, ADMIN_NAME_KEY);
    var usuarioName := Lookup(storage, USUARIO_NAME_KEY);
    if modo == Some("admin") && code == Some(ADMIN_CODE) && Present(adminName) then AsAdmin(adminName.value)
    else if modo == Some("usuario") && Present(usuarioName) then AsUsuario(usuarioName.value)
    else Nothing
  }

  /** Round trip: after every write of a correct admin login has succeeded, a restart restores
      that admin, under the given name or "Admin" when the name was empty. */
  lemma {:induction false} AdminLoginRestores(storage: map<string, string>, name: string)
    ensures Restore(Perform(storage, AdminWrites(ADMIN_CODE, name), 3)) == AsAdmin(OrElse(Some(name), "Admin"))
  {
    var n := OrElse(Some(name), "Admin");
    var ws := AdminWrites(ADMIN_CODE, name);
    var s1 := storage[ADMIN_CODE_KEY := ADMIN_CODE];
    var s2 := s1[ADMIN_NAME_KEY := n];
    var s3 := s2[MODO_KEY := "admin"];
    PerformStep(storage, ws, 3);
    PerformStep(s1, ws[1..], 2);
    PerformStep(s2, ws[1..][1..], 1);
    assert Perform(storage, ws, 3) == s3;
  }

  /** Round trip for the usuario login: a restart restores the usuario. The admin keys are not
      cleared and admin is checked first, but the `@modo` write makes that check fail. */
  lemma {:induction false} UsuarioLoginRestores(storage: map<string, string>, name: string)
    ensures Restore(Perform(storage, UsuarioWrites(name), 2)) == AsUsuario(OrElse(Some(name), "Usuario"))
  {
    var ws := UsuarioWrites(name);
    var s1 := storage[USUARIO_NAME_KEY := OrElse(Some(name), "Usuario")];
    var s2 := s1[MODO_KEY := "usuario"];
    PerformStep(storage, ws, 2);
    PerformStep(s1, ws[1..], 1);
    assert Perform(storage, ws, 2) == s2;
  }

  /** A logout whose four removals all succeed leaves nothing to restore. */
  lemma {:induction false} LogoutForgets(storage: map<string, string>)
    ensures Restore(Perform(storage, LOGOUT_REMOVALS, 4)) == Nothing
    ensures forall op :: op in LOGOUT_REMOVALS ==> op.key !in Perform(storage, LOGOUT_REMOVALS, 4)
  {
    var ops := LOGOUT_REMOVALS;
    var s1 := storage - {ADMIN_CODE_KEY};
    var s2 := s1 - {ADMIN_NAME_KEY};
    var s3 := s2 - {USUARIO_NAME_KEY};
    var s4 := s3 - {MODO_KEY};
    PerformStep(storage, ops, 4);
    PerformStep(s1, ops[1..], 3);
    PerformStep(s2, ops[1..][1..], 2);
    PerformStep(s3, ops[1..][1..][1..], 1);
    assert Perform(storage, ops, 4) == s4;
  }

  class AdminSession {
    var storage: map<string, string>
    var isAdmin: bool
    var isUsuario: bool
    var adminName: string
    var usuarioName: string
    var modo: Option<string>
    var loading: bool

    /** The provider's initial state over an existing store. */
    constructor (storage: map<string, string>)
      ensures this.storage == storage
      ensures !isAdmin && !isUsuario && adminName == "" && usuarioName == "" && modo == None && loading
    {
      this.storage := storage;
      isAdmin, isUsuario := false, false;
      adminName, usuarioName := "", "";
      modo := None;
      loading := true;
    }

    /** Restores the session from the store; `readsOk` is false when one of the four reads
        throws (the error is logged and nothing is restored). Only ever sets fields, never
        clears them. */
    method CheckSession(readsOk: bool)
      modifies this
      ensures storage == old(storage) && !loading
      ensures readsOk && Restore(storage).AsAdmin? ==>
        isAdmin && adminName == Restore(storage).adminName && modo == Some("admin")
        && isUsuario == old(isUsuario) && usuarioName == old(usuarioName)
      ensures readsOk && Restore(storage).AsUsuario? ==>
        isUsuario && usuarioName == Restore(storage).usuarioName && modo == Some("usuario")
        && isAdmin == old(isAdmin) && adminName == old(adminName)
      ensures !readsOk || Restore(storage).Nothing? ==>
        isAdmin == old(isAdmin) && isUsuario == old(isUsuario) && adminName == old(adminName)
        && usuarioName == old(usuarioName) && modo == old(modo)
    {
      if readsOk {
        match Restore(storage)
        case AsAdmin(n) =>
          isAdmin := true;
          adminName := n;
          modo := Some("admin");
        case AsUsuario(n) =>
          isUsuario := true;
          usuarioName := n;
          modo := Some("usuario");
        case Nothing =>
      }
      loading := false;
    }

    /** Admin login with the shared code. `okWrites` is how many of the three writes succeed
        before one throws. Never touches `isUsuario` or `usuarioName`. */
    method Login(code: string, name: string, okWrites: nat) returns (r: LoginResult)
      modifies this
      ensures isUsuario == old(isUsuario) && usuarioName == old(usuarioName) && loading == old(loading)
      ensures code != ADMIN_CODE ==>
        r == LoginResult(false, Some(ERROR_CODIGO)) && storage == old(storage)
        && isAdmin == old(isAdmin) && adminName == old(adminName) && modo == old(modo)
      ensures code == ADMIN_CODE ==> storage == Perform(old(storage), AdminWrites(code, name), okWrites)
      ensures code == ADMIN_CODE && okWrites < 3 ==>
        r == LoginResult(false, Some(ERROR_GUARDAR))
        && isAdmin == old(isAdmin) && adminName == old(adminName) && modo == old(modo)
      ensures code == ADMIN_CODE && okWrites >= 3 ==>
        r == LoginResult(true, None) && isAdmin && adminName == OrElse(Some(name), "Admin") && modo == Some("admin")
    {
      if code == ADMIN_CODE {
        var ws := AdminWrites(code, name);
        if okWrites < 1 {
          return LoginResult(false, Some(ERROR_GUARDAR));
        }
        PerformStep(storage, ws, okWrites);
        storage := storage[ADMIN_CODE_KEY := code];
        if okWrites < 2 {
          return LoginResult(false, Some(ERROR_GUARDAR));
        }
        PerformStep(storage, ws[1..], okWrites - 1);
        storage := storage[ADMIN_NAME_KEY := OrElse(Some(name), "Admin")];
        if okWrites < 3 {
          return LoginResult(false, Some(ERROR_GUARDAR));
        }
        PerformStep(storage, ws[1..][1..], okWrites - 2);
        storage := storage[MODO_KEY := "admin"];
        assert ws[1..][1..][1..] == [];
        isAdmin := true;
        adminName := OrElse(Some(name), "Admin");
        modo := Some("admin");
        return LoginResult(true, None);
      }
      return LoginResult(false, Some(ERROR_CODIGO));
    }

    /** Usuario login: no code; `okWrites` is how many of the two writes succeed. Never
        touches `isAdmin` or `adminName`. */
    method LoginUsuario(name: string, okWrites: nat) returns (r: LoginResult)
      modifies this
      ensures isAdmin == old(isAdmin) && adminName == old(adminName) && loading == old(loading)
      ensures storage == Perform(old(storage), UsuarioWrites(name), okWrites)
      ensures okWrites < 2 ==>
        r == LoginResult(false, Some(ERROR_GUARDAR))
        && isUsuario == old(isUsuario) && usuarioName == old(usuarioName) && modo == old(modo)
      ensures okWrites >= 2 ==>
        r == LoginResult(true, None) && isUsuario && usuarioName == OrElse(Some(name), "Usuario") && modo == Some("usuario")
    {
      var ws := UsuarioWrites(name);
      if okWrites < 1 {
        return LoginResult(false, Some(ERROR_GUARDAR));
      }
      PerformStep(storage, ws, okWrites);
      storage := storage[USUARIO_NAME_KEY := OrElse(Some(name), "Usuario")];
      if okWrites < 2 {
        return LoginResult(false, Some(ERROR_GUARDAR));
      }
      PerformStep(storage, ws[1..], okWrites - 1);
      storage := storage[MODO_KEY := "usuario"];
      assert ws[1..][1..] == [];
      isUsuario := true;
      usuarioName := OrElse(Some(name), "Usuario");
      modo := Some("usuario");
      return LoginResult(true, None);
    }

    /** Removes the four keys in order; `okRemovals` is how many succeed before one throws.
        The error is swallowed, and then the in-memory reset does not happen. */
    method Logout(okRemovals: nat)
      modifies this
      ensures storage == Perform(old(storage), LOGOUT_REMOVALS, okRemovals)
      ensures loading == old(loading)
      ensures okRemovals >= 4 ==>
        !isAdmin && !isUsuario && adminName == "" && usuarioName == "" && modo == None
      ensures okRemovals < 4 ==>
        isAdmin == old(isAdmin) && isUsuario == old(isUsuario) && adminName == old(adminName)
        && usuarioName == old(usuarioName) && modo == old(modo)
    {
      var ops := LOGOUT_REMOVALS;
      if okRemovals < 1 {
        return;
      }
      PerformStep(storage, ops, okRemovals);
      storage := storage - {ADMIN_CODE_KEY};
      if okRemovals < 2 {
        return;
      }
      PerformStep(storage, ops[1..], okRemovals - 1);
      storage := storage - {ADMIN_NAME_KEY};
      if okRemovals < 3 {
        return;
      }
      PerformStep(storage, ops[1..][1..], okRemovals - 2);
      storage := storage - {USUARIO_NAME_KEY};
      if okRemovals < 4 {
        return;
      }
      PerformStep(storage, ops[1..][1..][1..], okRemovals - 3);
      storage := storage - {MODO_KEY};
      assert ops[1..][1..][1..][1..] == [];
      isAdmin := false;
      isUsuario := false;
      adminName := "";
      usuarioName := "";
      modo := None;
    }
  }
}

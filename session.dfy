/** The authentication context: the signed-in user and bearer token held in memory, restored
    at start-up from persistent key-value storage and written back on sign-in and sign-out. */
module Session {
  import opened Wrappers

  const TokenKey: string := "token"
  const UserKey: string := "usuario"

  /** Which of an operation's two storage calls throws, if any. */
  datatype StorageFault = NoFault | FirstCallFails | SecondCallFails

  /** What restoring finds in storage: a session when both entries are present and non-empty
      (the stored user is the user object as JSON text). */
  function StoredSession(store: map<string, string>): Option<(string, string)> {
    if TokenKey in store && UserKey in store && store[TokenKey] != "" && store[UserKey] != ""
    then Some((store[TokenKey], store[UserKey]))
    else None
  }

  /** Storage after sign-in: the token is written, then the user; a failing call stops the
      sequence. */
  function StoreAfterLogin(store: map<string, string>, token: string, user: string, fault: StorageFault): map<string, string> {
    match fault
    case NoFault => store[TokenKey := token][UserKey := user]
    case FirstCallFails => store
    case SecondCallFails => store[TokenKey := token]
  }

  /** Storage after sign-out: the token is removed, then the user; a failing call stops the
      sequence. */
  function StoreAfterLogout(store: map<string, string>, fault: StorageFault): map<string, string> {
    match fault
    case NoFault => store - {TokenKey, UserKey}
    case FirstCallFails => store
    case SecondCallFails => store - {TokenKey}
  }

  /** Restoring after a successful sign-in with a non-empty token and user gives back exactly
      that token and user; no other key is touched. */
  lemma RestoreAfterLogin(store: map<string, string>, token: string, user: string)
    requires token != "" && user != ""
    ensures StoredSession(StoreAfterLogin(store, token, user, NoFault)) == Some((token, user))
    ensures forall k :: k != TokenKey && k != UserKey ==>
              (k in StoreAfterLogin(store, token, user, NoFault) <==> k in store)
    ensures forall k :: k != TokenKey && k != UserKey && k in store ==>
              StoreAfterLogin(store, token, user, NoFault)[k] == store[k]
  {
    assert TokenKey != UserKey;
  }

  /** Restoring after a sign-out whose first removal succeeded finds no session. */
  lemma RestoreAfterLogout(store: map<string, string>, fault: StorageFault)
    requires fault != FirstCallFails
    ensures StoredSession(StoreAfterLogout(store, fault)) == None
  {
  }

  /** A sign-in whose first write fails leaves storage as it was, so the previous stored
      session (if any) is what a restart restores. */
  lemma FailedLoginKeepsStoredSession(store: map<string, string>, token: string, user: string)
    ensures StoredSession(StoreAfterLogin(store, token, user, FirstCallFails)) == StoredSession(store)
  {
  }

  datatype LoginOutcome = Saved | StorageErrorRethrown

  class AuthSession {
    var usuario: Option<string>
    var token: Option<string>
    var cargando: bool
    var storage: map<string, string>

    /** The provider's initial state: nobody signed in, still loading. */
    constructor (persisted: map<string, string>)
      ensures usuario == None && token == None && cargando
      ensures storage == persisted
    {
      usuario, token, cargando := None, None, true;
      storage := persisted;
    }

    /** verificarSesionGuardada: both entries are read; the session is set only when both are
        present and non-empty; a storage failure is swallowed; loading ends in every case. */
    method VerificarSesionGuardada(readFails: bool)
      modifies this`token, this`usuario, this`cargando
      ensures !cargando
      ensures !readFails && StoredSession(storage).Some? ==>
                token == Some(StoredSession(storage).value.0) && usuario == Some(StoredSession(storage).value.1)
      ensures readFails || StoredSession(storage).None? ==>
                token == old(token) && usuario == old(usuario)
    {
      if !readFails {
        var found := StoredSession(storage);
        if found.Some? {
          token := Some(found.value.0);
          usuario := Some(found.value.1);
        }
      }
      cargando := false;
    }

    /** iniciarSesion (also exported as login): memory is set first, then both keys are
        written; a storage failure is rethrown to the caller. */
    method IniciarSesion(tokenAuth: string, datosUsuario: string, fault: StorageFault) returns (outcome: LoginOutcome)
      modifies this`usuario, this`token, this`storage
      ensures usuario == Some(datosUsuario) && token == Some(tokenAuth)
      ensures storage == StoreAfterLogin(old(storage), tokenAuth, datosUsuario, fault)
      ensures outcome == Saved <==> fault == NoFault
    {
      usuario := Some(datosUsuario);
      token := Some(tokenAuth);
      if fault == FirstCallFails {
        return StorageErrorRethrown;
      }
      storage := storage[TokenKey := tokenAuth];
      if fault == SecondCallFails {
        return StorageErrorRethrown;
      }
      storage := storage[UserKey := datosUsuario];
      outcome := Saved;
    }

    /** cerrarSesion (also exported as logout): memory is cleared first, then both keys are
        removed; a storage failure is swallowed. */
    method CerrarSesion(fault: StorageFault)
      modifies this`usuario, this`token, this`storage
      ensures usuario == None && token == None
      ensures storage == StoreAfterLogout(old(storage), fault)
    {
      usuario := None;
      token := None;
      if fault == FirstCallFails {
        return;
      }
      storage := storage - {TokenKey};
      if fault == SecondCallFails {
        return;
      }
      storage := storage - {UserKey};
      assert storage == old(storage) - {TokenKey, UserKey};
    }
  }

  /** Signing in, then starting the app again over the same storage, restores the session. */
  method SessionSurvivesRestart(store: map<string, string>, t: string, u: string) returns (restoredToken: Option<string>, restoredUser: Option<string>)
    requires t != "" && u != ""
    ensures restoredToken == Some(t) && restoredUser == Some(u)
  {
    var before := new AuthSession(store);
    var outcome := before.IniciarSesion(t, u, NoFault);
    var after := new AuthSession(before.storage);
    RestoreAfterLogin(store, t, u);
    after.VerificarSesionGuardada(false);
    restoredToken, restoredUser := after.token, after.usuario;
  }
}

/**
 A straight-line reference for the import workflow, and the proof that the
 step machine of module KeyImport follows it on every input.

 The reference lists, path by path, the calls a run makes and what it
 returns. Each privileged call is given its own authorisation context, built
 afresh; the machine instead registers the session array with the library
 once and changes its slot 0 in place between the two calls.
 */
module KeyImportReference {
  import opened Arguments
  import opened KeyImport

  /** The authorisation for reading the storage key: a password session with an empty password. */
  function PasswordAuth(): AuthSlot
  {
    AuthSlot(TPM_RS_PW, [])
  }

  /** The authorisation for importing under the storage key: the same password
      session carrying the storage key's auth value. */
  function StorageKeyAuth(p: Platform): AuthSlot
  {
    AuthSlot(TPM_RS_PW, p.storageKeyAuth)
  }

  /** The run of the workflow, path by path. */
  function Expected(env: Env): Report
  {
    var o := env.responses;
    var p := env.platform;
    var read := ReadPublicKey(p.storageHandle, PasswordAuth());
    var imp := ImportCall(env.alg, StorageKeyAuth(p));
    if o.initRc != 0 then
      Report(o.initRc, [Init, UnloadHandle(false), Cleanup], 0)
    else if o.readPublicRc != 0 then
      Report(o.readPublicRc, [Init, SetSessionAuth, read, UnloadHandle(false), Cleanup], 0)
    else if o.importRc != 0 then
      Report(o.importRc, [Init, SetSessionAuth, read, imp, UnloadHandle(true), Cleanup], 0)
    else if env.build == NoFilesystem then
      Report(0, [Init, SetSessionAuth, read, imp,
                 PrintBlob(o.importedPubSize, o.importedPrivSize),
                 UnloadHandle(true), Cleanup], 0)
    else if !o.openOk then
      Report(0, [Init, SetSessionAuth, read, imp, FileOpen(env.outputFile),
                 UnloadHandle(true), Cleanup], 0)
    else
      Report(0, [Init, SetSessionAuth, read, imp, FileOpen(env.outputFile),
                 WritePublic(p.publicStructSize % 0x1_0000, p.publicStructSize),
                 WritePrivate(UINT16_SIZE + o.importedPrivSize), FileClose,
                 UnloadHandle(true), Cleanup],
             p.publicStructSize + UINT16_SIZE + o.importedPrivSize)
  }

  /** From the exit label, the run unloads the key handle and cleans up, and
      nothing else changes. */
  lemma FunnelFinishes(env: Env, m: Machine)
    requires m.pc == Funnel
    ensures Exec(env, m) == Report(m.rc, m.calls + [UnloadHandle(m.key.Blob?), Cleanup], m.fileSz)
  {
  }

  /** From the save step after a successful import, the blob is saved (or
      printed) and the run ends in the funnel with rc 0. */
  lemma SaveFinishes(env: Env, m: Machine)
    requires m.pc == SaveBlob && m.rc == 0 && m.fileSz == 0
    requires m.key == Blob(env.responses.importedPubSize, env.responses.importedPrivSize)
    ensures var o := env.responses;
      var p := env.platform;
      Exec(env, m) ==
        if env.build == NoFilesystem then
          Report(0, m.calls + [PrintBlob(o.importedPubSize, o.importedPrivSize), UnloadHandle(true), Cleanup], 0)
        else if !o.openOk then
          Report(0, m.calls + [FileOpen(env.outputFile), UnloadHandle(true), Cleanup], 0)
        else
          Report(0, m.calls + [FileOpen(env.outputFile),
                               WritePublic(p.publicStructSize % 0x1_0000, p.publicStructSize),
                               WritePrivate(UINT16_SIZE + o.importedPrivSize), FileClose,
                               UnloadHandle(true), Cleanup],
                 p.publicStructSize + UINT16_SIZE + o.importedPrivSize)
  {
    var m' := Step(env, m);
    assert Exec(env, m) == Exec(env, m');
    FunnelFinishes(env, m');
  }

  /** From the import, with the storage key's auth in the slot and `impKey`
      zeroed, up to the end of the run. */
  lemma ImportFinishes(env: Env, m: Machine)
    requires env.responses.initRc == 0 && env.responses.readPublicRc == 0
    requires m.pc == ImportKey && m.rc == 0 && m.fileSz == 0 && m.key == Blob(0, 0)
    requires m.slot == StorageKeyAuth(env.platform)
    requires m.calls == [Init, SetSessionAuth, ReadPublicKey(env.platform.storageHandle, PasswordAuth())]
    ensures Exec(env, m) == Expected(env)
  {
    var m1 := Step(env, m);
    assert Exec(env, m) == Exec(env, m1);
    var imp := ImportCall(env.alg, StorageKeyAuth(env.platform));
    assert m1.calls == m.calls + [imp];
    if env.responses.importRc != 0 {
      FunnelFinishes(env, m1);
    } else {
      SaveFinishes(env, m1);
    }
  }

  /** From the storage key read, with the password session in the slot, up to
      the end of the run. */
  lemma ReadParentFinishes(env: Env, m: Machine)
    requires env.responses.initRc == 0
    requires m.pc == ReadParent && m.rc == 0 && m.fileSz == 0 && m.key == Uninitialised
    requires m.slot == PasswordAuth() && m.calls == [Init, SetSessionAuth]
    ensures Exec(env, m) == Expected(env)
  {
    var m1 := Step(env, m);
    assert Exec(env, m) == Exec(env, m1);
    if env.responses.readPublicRc != 0 {
      FunnelFinishes(env, m1);
    } else {
      var m2 := Step(env, m1);
      assert Exec(env, m1) == Exec(env, m2);
      assert m2.slot == StorageKeyAuth(env.platform) by {
        var arr := StorageKeyAuthArray(env.platform);
        assert arr[..|arr| - 1] == env.platform.storageKeyAuth;
      }
      ImportFinishes(env, m2);
    }
  }

  /** The step machine follows the reference on every input. */
  lemma WorkflowMatchesReference(env: Env)
    ensures Workflow(env) == Expected(env)
  {
    var m0 := Start();
    var m1 := Step(env, m0);
    assert Exec(env, m0) == Exec(env, m1);
    if env.responses.initRc != 0 {
      FunnelFinishes(env, m1);
    } else {
      var m2 := Step(env, m1);
      assert Exec(env, m1) == Exec(env, m2);
      ReadParentFinishes(env, m2);
    }
  }
}

/**
 What TPM2_Keyimport_Example promises about its import workflow, proved of the
 step machine of module KeyImport (through the reference it follows).

 `env` fixes the build, the platform constants, the selected output file and
 algorithm, and what each external call answers. Positions in the call trace
 are those of the calls the function makes: 0 init, 1 the registration of the
 session array, 2 the storage key read, 3 the import, then the save step, and
 the exit funnel last.
 */
module KeyImportProperties {
  import opened Arguments
  import opened KeyImport
  import opened KeyImportReference

  /** The first nonzero code of `codes`, or 0 when every code is 0. */
  function FirstFailure(codes: seq<int>): (r: int)
    ensures r == 0 <==> forall i :: 0 <= i < |codes| ==> codes[i] == 0
    ensures r != 0 ==> exists i :: 0 <= i < |codes| && codes[i] == r && forall j :: 0 <= j < i ==> codes[j] == 0
  {
    if |codes| == 0 then 0
    else if codes[0] != 0 then codes[0]
    else
      var r := FirstFailure(codes[1..]);
      assert forall i :: 1 <= i < |codes| ==> codes[i] == codes[1..][i - 1];
      r
  }

  /** The storage key is read only when device init returned 0, and then
      exactly once, third, after init and the registration of the session array. */
  lemma ReadOnlyAfterInit(env: Env)
    ensures var calls := Workflow(env).calls;
      && (forall i :: 0 <= i < |calls| ==>
            (calls[i].ReadPublicKey? <==> env.responses.initRc == 0 && i == 2))
      && (env.responses.initRc == 0 ==> calls[0] == Init && calls[1] == SetSessionAuth)
  {
    WorkflowMatchesReference(env);
  }

  /** A key is imported only when both device init and the storage key read
      returned 0, and then exactly once, fourth; it is the ECC import exactly
      when ECC was selected, the RSA import otherwise. */
  lemma ImportOnlyAfterParent(env: Env)
    ensures var calls := Workflow(env).calls;
      && (forall i :: 0 <= i < |calls| ==>
            (calls[i].IsImport() <==>
               env.responses.initRc == 0 && env.responses.readPublicRc == 0 && i == 3))
      && (forall i :: 0 <= i < |calls| && calls[i].IsImport() ==>
            (calls[i].ImportEcc? <==> env.alg == Ecc))
  {
    WorkflowMatchesReference(env);
  }

  /** The session array is registered with the library exactly once, second,
      on every run whose device init returned 0, and never otherwise. */
  lemma SessionRegisteredOnce(env: Env)
    ensures var calls := Workflow(env).calls;
      forall i :: 0 <= i < |calls| ==>
        (calls[i] == SetSessionAuth <==> env.responses.initRc == 0 && i == 1)
  {
    WorkflowMatchesReference(env);
  }

  /** When the storage key is read, slot 0 of the session array holds the password
      session handle with an empty auth, and the read is of the storage key's handle. */
  lemma AuthSlotAtRead(env: Env)
    ensures var calls := Workflow(env).calls;
      forall i :: 0 <= i < |calls| && calls[i].ReadPublicKey? ==>
        && calls[i].handle == env.platform.storageHandle
        && calls[i].slot.sessionHandle == TPM_RS_PW
        && |calls[i].slot.auth| == 0
  {
    WorkflowMatchesReference(env);
  }

  /** When a key is imported, the same slot holds the password session handle
      with the storage key's auth value: the characters of the array without
      its terminating NUL. */
  lemma AuthSlotAtImport(env: Env)
    ensures var calls := Workflow(env).calls;
      forall i :: 0 <= i < |calls| && calls[i].IsImport() ==>
        && calls[i].slot.sessionHandle == TPM_RS_PW
        && calls[i].slot.auth == env.platform.storageKeyAuth
        && calls[i].slot.auth == StorageKeyAuthArray(env.platform)[..|StorageKeyAuthArray(env.platform)| - 1]
  {
    WorkflowMatchesReference(env);
    var arr := StorageKeyAuthArray(env.platform);
    assert arr[..|arr| - 1] == env.platform.storageKeyAuth;
  }

  /** The workflow returns the first nonzero code among device init, the
      storage key read and the import, and 0 when all three returned 0,
      whatever happens when the blob is saved. */
  lemma ReturnCode(env: Env)
    ensures var o := env.responses;
      Workflow(env).rc == FirstFailure([o.initRc, o.readPublicRc, o.importRc])
  {
    WorkflowMatchesReference(env);
    var o := env.responses;
    var codes := [o.initRc, o.readPublicRc, o.importRc];
    if o.initRc == 0 {
      assert codes[1..] == [o.readPublicRc, o.importRc];
      assert FirstFailure(codes) == FirstFailure(codes[1..]);
      if o.readPublicRc == 0 {
        assert codes[1..][1..] == [o.importRc];
        assert FirstFailure(codes[1..]) == FirstFailure(codes[1..][1..]);
        assert codes[1..][1..][1..] == [];
      }
    }
  }

  /** An output file that does not open is not an error: the run still returns
      0, makes no write and reports 0 bytes. */
  lemma OpenFailureStillSucceeds(env: Env)
    requires env.build == Filesystem && !env.responses.openOk
    requires env.responses.initRc == 0 && env.responses.readPublicRc == 0 && env.responses.importRc == 0
    ensures var r := Workflow(env);
      && r.rc == 0
      && r.fileSz == 0
      && |r.calls| == 7
      && r.calls[4] == FileOpen(env.outputFile)
      && forall i :: 0 <= i < |r.calls| ==> !r.calls[i].IsWrite()
  {
    WorkflowMatchesReference(env);
  }

  /** The blob is written only after a successful import, in a file-system
      build, into a file that opened. The public area goes first, its size
      field overwritten by the size of the structure (cut to 16 bits), then the
      private area with its 2-byte size; the reported byte count is their sum,
      and 0 on every other path. */
  lemma WriteStep(env: Env)
    ensures var r := Workflow(env);
      var o := env.responses;
      var p := env.platform;
      var writes := env.build == Filesystem && o.initRc == 0 && o.readPublicRc == 0 && o.importRc == 0 && o.openOk;
      && (forall i :: 0 <= i < |r.calls| ==> (r.calls[i].IsWrite() <==> writes && 5 <= i <= 6))
      && r.fileSz == (if writes then p.publicStructSize + UINT16_SIZE + o.importedPrivSize else 0)
      && (writes ==>
            && |r.calls| == 10
            && r.calls[4] == FileOpen(env.outputFile)
            && r.calls[5] == WritePublic(p.publicStructSize % 0x1_0000, p.publicStructSize)
            && r.calls[6] == WritePrivate(UINT16_SIZE + o.importedPrivSize)
            && r.calls[7] == FileClose)
  {
    WorkflowMatchesReference(env);
  }

  /** Without a file system the imported blob is printed, with the sizes the
      import produced, and no file is opened or written. */
  lemma NoFilesystemPrints(env: Env)
    requires env.build == NoFilesystem
    ensures var r := Workflow(env);
      var o := env.responses;
      && (forall i :: 0 <= i < |r.calls| ==> !r.calls[i].FileOpen? && !r.calls[i].IsWrite())
      && r.fileSz == 0
      && (o.initRc == 0 && o.readPublicRc == 0 && o.importRc == 0 ==>
            |r.calls| == 7 && r.calls[4] == PrintBlob(o.importedPubSize, o.importedPrivSize))
  {
    WorkflowMatchesReference(env);
  }

  /** Every run ends by unloading `impKey`'s handle and then cleaning up the
      device, whichever step failed. The handle passed to unload is
      initialised (zeroed) exactly when device init and the storage key read
      both returned 0; on the earlier failures it is still uninitialised. */
  lemma UnloadAfterEveryPath(env: Env)
    ensures var calls := Workflow(env).calls;
      var o := env.responses;
      && |calls| >= 2
      && calls[|calls| - 2] == UnloadHandle(o.initRc == 0 && o.readPublicRc == 0)
      && calls[|calls| - 1] == Cleanup
      && forall i :: 0 <= i < |calls| - 2 ==> !calls[i].UnloadHandle? && calls[i] != Cleanup
  {
    WorkflowMatchesReference(env);
  }
}

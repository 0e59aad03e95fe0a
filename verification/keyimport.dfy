/**
 The body of TPM2_Keyimport_Example after argument selection, as a step
 machine over the function's own local state.

 Every call into the TPM library, the file system or the console is recorded in
 a call trace; what the library answers is an input (`Responses`), since its
 code is not part of this model. One machine state carries the locals of the
 C function: `rc`, slot 0 of the `MAX_SESSION_NUM`-entry session array (the
 only entry the function assigns; the array is registered once and slot 0 is
 then changed in place), the key blob `impKey` (uninitialised until it is zeroed),
 and the byte count `fileSz`. Each `goto exit` jumps to the `Funnel` step, which
 unloads the key handle and cleans up the device on every path.
 */
module KeyImport {
  import opened Arguments

  /** TPM_RC_SUCCESS. */
  const TPM_RC_SUCCESS: int := 0
  /** TPM_RS_PW, the password authorisation session handle (section 7.4 of TPM 2.0 Library Part 2). */
  const TPM_RS_PW: int := 0x4000_0009
  /** sizeof(UINT16), the size prefix of the private area as written to the file. */
  const UINT16_SIZE: nat := 2

  type uint16 = x: int | 0 <= x < 0x1_0000

  /** Slot 0 of the session array: the session handle and the auth value it
      presents (the first `auth.size` bytes of the auth buffer). The other
      entries are zeroed with it and never assigned. */
  datatype AuthSlot = AuthSlot(sessionHandle: int, auth: string)

  /** Slot 0 after `XMEMSET(session, 0, sizeof(session))`. */
  const ZeroSlot: AuthSlot := AuthSlot(0, [])

  /** `impKey`: stack garbage until zeroed, then a blob whose public and private
      areas carry a 16-bit size each. */
  datatype KeyBlob = Uninitialised | Blob(pubSize: uint16, privSize: uint16)

  /** One call the function makes, with the arguments that matter here. */
  datatype Call =
    | Usage
    | Init
    | SetSessionAuth
    | ReadPublicKey(handle: int, slot: AuthSlot)
    | ImportRsa(slot: AuthSlot)
    | ImportEcc(slot: AuthSlot)
    | FileOpen(path: string)
    | WritePublic(sizeField: uint16, count: nat)
    | WritePrivate(count: nat)
    | FileClose
    | PrintBlob(pubSize: uint16, privSize: uint16)
    | UnloadHandle(initialised: bool)
    | Cleanup
  {
    /** A command that reaches the TPM (as opposed to local or file work). */
    predicate IsDeviceCall()
    {
      Init? || ReadPublicKey? || ImportRsa? || ImportEcc? || UnloadHandle? || Cleanup?
    }

    predicate IsImport()
    {
      ImportRsa? || ImportEcc?
    }

    predicate IsWrite()
    {
      WritePublic? || WritePrivate?
    }
  }

  /** Values that come from headers outside this model: the storage key's
      persistent handle (TPM2_DEMO_STORAGE_KEY_HANDLE), the characters of the
      string literal gStorageKeyAuth, and sizeof(TPM2B_PUBLIC). */
  datatype Platform = Platform(storageHandle: int, storageKeyAuth: string, publicStructSize: nat)

  /** What each external call answers when it is made. The import fills in the
      key blob's two area sizes; `openOk` says whether XFOPEN returned a file. */
  datatype Responses = Responses(
    initRc: int,
    readPublicRc: int,
    importRc: int,
    importedPubSize: uint16,
    importedPrivSize: uint16,
    openOk: bool)

  /** What the function leaves behind: its return code, the calls it made, and
      the byte count it reports as written. */
  datatype Report = Report(rc: int, calls: seq<Call>, fileSz: nat)

  /** Where control is; each value is a stretch of straight-line C code. */
  datatype Pc =
    | Begin            // zero the locals, wolfTPM2_Init
    | PasswordSession  // slot 0 := TPM_RS_PW with empty auth, register the array
    | ReadParent       // wolfTPM2_ReadPublicKey of the storage key
    | StorageAuth      // slot 0 auth := gStorageKeyAuth, zero impKey
    | ImportKey        // wolfTPM2_ImportRsaPrivateKey or ImportEccPrivateKey
    | SaveBlob         // write (or print) the blob
    | Funnel           // exit: unload impKey's handle, clean up the device
    | Done

  /** The locals of TPM2_Keyimport_Example that decide what happens next. */
  datatype Machine = Machine(
    pc: Pc,
    rc: int,
    slot: AuthSlot,
    key: KeyBlob,
    fileSz: nat,
    calls: seq<Call>)

  /** The fixed inputs of one run: the build, the platform, the selected
      configuration and the external responses. */
  datatype Env = Env(build: Build, platform: Platform, outputFile: string, alg: Alg, responses: Responses)

  /** The array `char gStorageKeyAuth[]` initialised by a string literal: its
      characters followed by the terminating NUL, so `sizeof` is one more. */
  function StorageKeyAuthArray(p: Platform): (a: string)
    ensures |a| == |p.storageKeyAuth| + 1 && a[|a| - 1] == '\0'
  {
    p.storageKeyAuth + ['\0']
  }

  /** The import call the selected algorithm leads to: RSA unless ECC was
      selected, made with the given session slot. */
  function ImportCall(alg: Alg, slot: AuthSlot): (c: Call)
    ensures c.IsImport() && c.slot == slot
    ensures c.ImportEcc? <==> alg == Ecc
  {
    match alg
    case Rsa => ImportRsa(slot)
    case Ecc => ImportEcc(slot)
  }

  /** Steps left before `Done`; every step lowers it. */
  function Rank(pc: Pc): nat
  {
    match pc
    case Begin => 7
    case PasswordSession => 6
    case ReadParent => 5
    case StorageAuth => 4
    case ImportKey => 3
    case SaveBlob => 2
    case Funnel => 1
    case Done => 0
  }

  /** The state just after argument selection: slot and counters zeroed,
      `impKey` not yet touched. */
  function Start(): Machine
  {
    Machine(Begin, TPM_RC_SUCCESS, ZeroSlot, Uninitialised, 0, [])
  }

  /** One stretch of straight-line code. Calls are only ever appended, and
      session slot 0 changes only where the C code assigns its fields. */
  function Step(env: Env, m: Machine): (r: Machine)
    requires m.pc != Done
    ensures Rank(r.pc) < Rank(m.pc)
    ensures m.calls <= r.calls
    ensures r.slot != m.slot ==> m.pc == Begin || m.pc == PasswordSession || m.pc == StorageAuth
    ensures r.fileSz != m.fileSz ==> m.pc == SaveBlob
    ensures r.rc != m.rc ==> m.pc == Begin || m.pc == ReadParent || m.pc == ImportKey
  {
    var o := env.responses;
    match m.pc
    case Begin =>
      var rc := o.initRc;
      m.(pc := if rc != TPM_RC_SUCCESS then Funnel else PasswordSession,
         rc := rc, slot := ZeroSlot, calls := m.calls + [Init])
    case PasswordSession =>
      var slot := m.slot.(sessionHandle := TPM_RS_PW, auth := []);
      m.(pc := ReadParent, slot := slot, calls := m.calls + [SetSessionAuth])
    case ReadParent =>
      var rc := o.readPublicRc;
      m.(pc := if rc != 0 then Funnel else StorageAuth,
         rc := rc, calls := m.calls + [ReadPublicKey(env.platform.storageHandle, m.slot)])
    case StorageAuth =>
      var arr := StorageKeyAuthArray(env.platform);
      var size := |arr| - 1;
      m.(pc := ImportKey, slot := m.slot.(auth := arr[..size]), key := Blob(0, 0))
    case ImportKey =>
      var call := ImportCall(env.alg, m.slot);
      var rc := o.importRc;
      m.(pc := if rc != 0 then Funnel else SaveBlob,
         rc := rc,
         key := if rc == 0 then Blob(o.importedPubSize, o.importedPrivSize) else m.key,
         calls := m.calls + [call])
    case SaveBlob =>
      var privSize := if m.key.Blob? then m.key.privSize else 0;
      var pubSize := if m.key.Blob? then m.key.pubSize else 0;
      if env.build == NoFilesystem then
        m.(pc := Funnel, calls := m.calls + [PrintBlob(pubSize, privSize)])
      else if !o.openOk then
        m.(pc := Funnel, calls := m.calls + [FileOpen(env.outputFile)])
      else
        var sizeField := env.platform.publicStructSize % 0x1_0000;
        var pubCount := env.platform.publicStructSize;
        var privCount := UINT16_SIZE + privSize;
        m.(pc := Funnel,
           key := Blob(sizeField, privSize),
           fileSz := m.fileSz + pubCount + privCount,
           calls := m.calls + [FileOpen(env.outputFile), WritePublic(sizeField, pubCount),
                               WritePrivate(privCount), FileClose])
    case Funnel =>
      m.(pc := Done, calls := m.calls + [UnloadHandle(m.key.Blob?), Cleanup])
  }

  /** Runs the machine to `Done`. From any state that has not finished, the
      calls made so far are kept and the run ends by unloading the key handle
      and then cleaning up the device. */
  function Exec(env: Env, m: Machine): (r: Report)
    ensures m.calls <= r.calls
    ensures m.pc != Done ==>
      && |r.calls| >= |m.calls| + 2
      && r.calls[|r.calls| - 2].UnloadHandle?
      && r.calls[|r.calls| - 1] == Cleanup
    decreases Rank(m.pc)
  {
    if m.pc == Done then
      Report(m.rc, m.calls, m.fileSz)
    else
      Exec(env, Step(env, m))
  }

  /** The import workflow of TPM2_Keyimport_Example once the arguments are
      selected; whatever fails, it ends in the cleanup funnel. */
  function Workflow(env: Env): (r: Report)
    ensures |r.calls| >= 2
    ensures r.calls[|r.calls| - 2].UnloadHandle? && r.calls[|r.calls| - 1] == Cleanup
  {
    Exec(env, Start())
  }

  /** TPM2_Keyimport_Example: the usage text, without any device call, when
      help is asked for; otherwise the workflow for the selected output file
      and algorithm. */
  function Run(build: Build, platform: Platform, argc: int, argv: seq<string>, o: Responses): (r: Report)
    requires argc <= |argv|
    ensures WantsHelp(build, argc, argv) ==> r == Report(0, [Usage], 0)
    ensures !WantsHelp(build, argc, argv) ==>
      var sel := SelectArgs(build, argc, argv);
      r == Workflow(Env(build, platform, sel.outputFile, sel.alg, o))
  {
    match SelectArgs(build, argc, argv)
    case ShowUsage => Report(0, [Usage], 0)
    case Config(path, alg) => Workflow(Env(build, platform, path, alg, o))
  }
}

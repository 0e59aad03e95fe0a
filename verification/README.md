# Key import example: model and proofs

This project models `TPM2_Keyimport_Example` from wolfTPM's key generation
examples (`examples/keygen/keyimport.c`). The function does the following:

- It reads its command line: a help flag, or an output path and an algorithm selector.
- It initialises the TPM device.
- It zeroes a `MAX_SESSION_NUM`-entry session array, of which only slot 0 is
  used, and registers the array with the library. Then it changes slot 0 in
  place between two privileged calls: reading the storage
  key (SRK) with an empty password, and importing a fixed RSA or ECC private key
  under it with the storage key's password.
- It saves the imported key blob to a file, or prints it when there is no file system.
- Every path ends at one `exit:` label. That label unloads the key handle and
  cleans up the device.

The model has four modules:

- `CString` (`cstring.dfy`) defines `strncmp` on C strings. It proves that a
  comparison over exactly the length of a NUL-free literal is a prefix test.
- `Arguments` (`arguments.dfy`) covers argument selection. It handles both
  builds: with a file system, and without one (where the arguments are ignored).
- `KeyImport` (`keyimport.dfy`) runs the rest of the function as a step machine.
  - The machine's state holds the C locals: `rc`, session slot 0, `impKey`
    (uninitialised until it is zeroed), `fileSz` and a trace of every external call.
  - Each `goto exit` jumps to the `Funnel` step.
  - The library, the file system and the console are not modelled. What they
    answer is an input (`Responses`), and each call they receive is a trace entry.
- `KeyImportReference` (`reference.dfy`) lists the calls and the result of each
  path in straight-line form. It proves that the machine follows this list on
  every input. `KeyImportProperties` (`properties.dfy`) then states what the
  function promises, on the machine's own output:
  - which calls happen, and in what order;
  - what the session slot holds at each privileged call;
  - the return code;
  - what is written and, in the file-system build, how many bytes are reported;
  - that every path unloads and cleans up.

The model keeps two behaviours of the code as written:

- If the output file cannot be opened, the function still returns 0 and reports 0 bytes.
- A failure of device init or of the storage key read jumps to `exit:` before
  `impKey` is zeroed, so the unload is handed an uninitialised handle. The
  trace entry `UnloadHandle(initialised)` records which case happened.

## Model

| member | source | states |
|---|---|---|
| `CString.StrNCmpFromIsPrefix` | examples/keygen/keyimport.c:59-60 | Comparing from position `i` up to a NUL-free literal's length succeeds exactly when the argument is long enough and matches the literal from `i` to its end. |
| `CString.StrNCmpEqual` | examples/keygen/keyimport.c:59-60 | `strncmp(a, b, n) == 0` holds exactly when the strings agree at every position below `n` that the comparison reaches, that is, every position with no NUL of `a` before it. So the comparison stops at the first difference, at a NUL both strings share, or after `n` characters. |
| `CString.StrNCmpMatchesPrefix` | examples/keygen/keyimport.c:68 | `strncmp(s, lit, len(lit)) == 0` holds exactly when `lit` is a prefix of `s`, so longer arguments such as `ECC384` or `--helpme` match too. |
| `Arguments.SelectArgs` | examples/keygen/keyimport.c:51-76 | Usage is shown exactly when a file-system build gets a first argument starting with `-?` or `--help`. Otherwise the output path is `argv[1]` when it exists, else `keyblob.bin`. ECC (TPM_ALG_ECC) is chosen exactly when a second argument starts with `ECC`, else RSA. |
| `Arguments.SelectionExamples` | examples/keygen/keyimport.c:58-72 | Worked cases: help variants, prefix matches, a short or lower-case selector (which means RSA), `argc` smaller than the list, and the build without a file system. |
| `KeyImport.StorageKeyAuthArray` | examples/keygen/keyimport.c:103-104 | The storage key's password array is one longer than its characters and ends in NUL, so `sizeof - 1` is the password length. |
| `KeyImport.Step` | examples/keygen/keyimport.c:77-155 | One stretch of the function moves closer to its end and only appends calls. Session slot 0 changes only where the code assigns it: zeroed, then the password session, then the storage key's password. The byte count changes only when the blob is saved. `rc` changes only at init, the storage key read and the import. |
| `KeyImport.Exec` | examples/keygen/keyimport.c:145-155 | From any unfinished state, the calls already made are kept, and the run ends by unloading the key handle and then cleaning up. |
| `KeyImport.Workflow` | examples/keygen/keyimport.c:77-155 | Every run of the workflow ends with the unload followed by the cleanup. |
| `KeyImport.Run` | examples/keygen/keyimport.c:44-155 | Asking for help prints the usage and returns 0 without any other call. Any other command line runs the workflow with the selected path and algorithm. |
| `KeyImport.ImportCall` | examples/keygen/keyimport.c:107-122 | The import made is an RSA or ECC import according to the selected algorithm, and it carries the current session slot. |
| `KeyImportReference.SaveFinishes` | examples/keygen/keyimport.c:128-155 | After a successful import, one of three things happens, then the funnel. Without a file system the blob is printed. If the open fails, nothing is written. Otherwise the public area is written with its size field overwritten, then the private area with its 2-byte prefix, then the file is closed. The byte count is their sum. |
| `KeyImportReference.ImportFinishes` | examples/keygen/keyimport.c:106-155 | From the import, with the storage key's password in the slot, the machine ends where the reference says. |
| `KeyImportReference.ReadParentFinishes` | examples/keygen/keyimport.c:92-155 | From the storage key read, with the empty-password session in the slot, the machine ends where the reference says. |
| `KeyImportReference.WorkflowMatchesReference` | examples/keygen/keyimport.c:77-155 | On every input (build, platform constants, selection and library answers), the step machine's result equals the reference path list. |
| `KeyImportProperties.FirstFailure` | examples/keygen/keyimport.c:81-123 | Returns 0 exactly when every code is 0. Otherwise it returns a code from the list that comes after only zeros. |
| `KeyImportProperties.ReadOnlyAfterInit` | examples/keygen/keyimport.c:81-98 | The storage key is read exactly when init returned 0. It is read once, as the third call, after init and the session registration. |
| `KeyImportProperties.ImportOnlyAfterParent` | examples/keygen/keyimport.c:93-123 | A key is imported exactly when init and the storage key read both returned 0. It is imported once, as the fourth call. It is the ECC import exactly when ECC was selected. |
| `KeyImportProperties.SessionRegisteredOnce` | examples/keygen/keyimport.c:87-90 | The session array is registered exactly once, second, on every run whose init returned 0, and never otherwise. |
| `KeyImportProperties.AuthSlotAtRead` | examples/keygen/keyimport.c:87-93 | At the storage key read, the slot holds TPM_RS_PW with an empty password, and the read is of the storage key handle. |
| `KeyImportProperties.AuthSlotAtImport` | examples/keygen/keyimport.c:102-122 | At the import, the same slot holds TPM_RS_PW with the storage key's password: the array's characters without its NUL. |
| `KeyImportProperties.ReturnCode` | examples/keygen/keyimport.c:81-155 | The function returns the first nonzero code of init, storage key read and import, or 0 when all three succeed. The save step never changes it. |
| `KeyImportProperties.OpenFailureStillSucceeds` | examples/keygen/keyimport.c:129-137 | If the output file does not open after a successful import, the open is attempted and nothing is written. The result is still 0, with 0 bytes reported. |
| `KeyImportProperties.WriteStep` | examples/keygen/keyimport.c:129-137 | Writes happen exactly when a file-system build imported successfully and opened the file, as calls 6 and 7. The first write is the public area: its size field is set to `sizeof(impKey.pub)` cut to 16 bits, and all of it is written. The second write is the private area's size prefix plus its bytes. The reported count is their sum, and 0 on every other path. |
| `KeyImportProperties.NoFilesystemPrints` | examples/keygen/keyimport.c:138-143 | Without a file system no file is opened or written, and the model's byte count stays 0 (this build has no `fileSz` and reports no count). After a successful import the blob is printed with the sizes the import produced. |
| `KeyImportProperties.UnloadAfterEveryPath` | examples/keygen/keyimport.c:145-155 | Every run ends with one unload and then one cleanup, and neither appears earlier. The unloaded handle was initialised exactly when init and the storage key read succeeded. |

## Left out

- Library internals (`wolfTPM2_Init`, `wolfTPM2_ReadPublicKey`, the two import functions, `wolfTPM2_UnloadHandle`, `wolfTPM2_Cleanup`) are not part of this model. Their return codes and the sizes the import fills in are inputs.
- The key material (`kRsaKeyPub*`, `kEccKey*`) and the TPM I/O callback and its user context are not part of this model. They do not affect control flow.
- Console output (`printf`, `usage`, `TPM2_PrintBin`, `TPM2_GetRCString`) becomes a single trace entry (`Usage`, `PrintBlob`) or is dropped. Its text is not modelled.
- The storage key handle, the characters of `gStorageKeyAuth` and `sizeof(TPM2B_PUBLIC)` come from headers that are not part of this model. They are the parameters of `Platform`.
- The 64-byte capacity of the session auth buffer is not modelled. The password is assumed to fit, as it does for the demo password.
- `KeyImportProperties.WriteStep`: each `XFWRITE` is taken to write every byte it is asked for. A short write, which the C code would add to `fileSz` as a smaller count, is not modelled.
- The `size_t` width of `fileSz` is not modelled: the sum is unbounded. The public area's 16-bit size field is truncated explicitly.
- What a failed import leaves inside `impKey` is not tracked. Only the fact that it was zeroed matters to the unload.
- The function dumps `impKey.pub` and `impKey.priv` raw. It has no length-prefixed framing or decoder, and none is modelled.
- Only slot 0 of the `MAX_SESSION_NUM`-entry session array is modelled. The other entries are zeroed at the start and never assigned, so they stay zeroed.
- `Report.fileSz` has no counterpart in the build without a file system: `fileSz` is declared only in the file-system build, and the other build prints the blob without reporting a count. The model keeps the field at 0 there.
- `main` only forwards its arguments with a NULL context, and is left out.

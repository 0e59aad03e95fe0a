/**
 Command-line selection of the key import tool: `keyimport [keyblob.bin] [ECC/RSA]`.

 The first argument is either a help flag or the output path; the second picks
 the key algorithm. Both tests are `strncmp` comparisons of a fixed length, so
 they are prefix tests, and an unrecognised algorithm name silently means RSA.
 */
module Arguments {
  import opened CString

  /** TPM_ALG_ID values of section 6.3 of TPM 2.0 Library Part 2 (Structures). */
  const TPM_ALG_RSA: int := 0x0001
  const TPM_ALG_ECC: int := 0x0023

  /** The two key algorithms the tool can import. */
  datatype Alg = Rsa | Ecc {
    function Id(): int
    {
      match this
      case Rsa => TPM_ALG_RSA
      case Ecc => TPM_ALG_ECC
    }
  }

  /** Whether the tool was built with a file system (and wolfCrypt). Without
      one, the arguments are ignored and the blob is printed instead of saved. */
  datatype Build = Filesystem | NoFilesystem

  /** What the arguments ask for: the usage text, or an import configuration. */
  datatype Selection = ShowUsage | Config(outputFile: string, alg: Alg)

  /** Output path used when no argument names one. */
  const DefaultOutput: string := "keyblob.bin"

  /** `argv[1]` starts with `-?` or with `--help` (only looked at in a file-system build). */
  predicate WantsHelp(build: Build, argc: int, argv: seq<string>)
    requires argc <= |argv|
  {
    && build == Filesystem
    && argc >= 2
    && ("-?" <= argv[1] || "--help" <= argv[1])
  }

  /** `argv[2]` is present and starts with `ECC` (only looked at in a file-system build). */
  predicate SelectsEcc(build: Build, argc: int, argv: seq<string>)
    requires argc <= |argv|
  {
    build == Filesystem && argc >= 3 && "ECC" <= argv[2]
  }

  /** The argument handling at the head of TPM2_Keyimport_Example. `argc` may be
      smaller than `|argv|` but never larger, as in C where `argv[argc]` ends the list. */
  function SelectArgs(build: Build, argc: int, argv: seq<string>): (r: Selection)
    requires argc <= |argv|
    ensures r.ShowUsage? <==> WantsHelp(build, argc, argv)
    ensures r.Config? ==>
      r.outputFile == (if build == Filesystem && argc >= 2 then argv[1] else DefaultOutput)
    ensures r.Config? ==> (r.alg == Ecc <==> SelectsEcc(build, argc, argv))
    ensures r.Config? ==> r.alg.Id() == (if SelectsEcc(build, argc, argv) then TPM_ALG_ECC else TPM_ALG_RSA)
  {
    if build == NoFilesystem || argc < 2 then
      Config(DefaultOutput, Rsa)
    else
      StrNCmpMatchesPrefix(argv[1], "-?");
      StrNCmpMatchesPrefix(argv[1], "--help");
      if StrNCmpEqual(argv[1], "-?", 2) || StrNCmpEqual(argv[1], "--help", 6) then
        ShowUsage
      else if argc >= 3 then
        StrNCmpMatchesPrefix(argv[2], "ECC");
        Config(argv[1], if StrNCmpEqual(argv[2], "ECC", 3) then Ecc else Rsa)
      else
        Config(argv[1], Rsa)
  }

  /** A few selections worked out on concrete command lines; a second argument
      that does not start with the three capitals `ECC` selects RSA. */
  lemma SelectionExamples()
    ensures SelectArgs(Filesystem, 1, ["keyimport"]) == Config(DefaultOutput, Rsa)
    ensures SelectArgs(Filesystem, 2, ["keyimport", "-?"]) == ShowUsage
    ensures SelectArgs(Filesystem, 2, ["keyimport", "--helpme"]) == ShowUsage
    ensures SelectArgs(Filesystem, 2, ["keyimport", "-h"]) == Config("-h", Rsa)
    ensures SelectArgs(Filesystem, 3, ["keyimport", "k.bin", "ECC"]) == Config("k.bin", Ecc)
    ensures SelectArgs(Filesystem, 3, ["keyimport", "k.bin", "ECC384"]) == Config("k.bin", Ecc)
    ensures SelectArgs(Filesystem, 3, ["keyimport", "k.bin", "ecc"]) == Config("k.bin", Rsa)
    ensures SelectArgs(Filesystem, 3, ["keyimport", "k.bin", "EC"]) == Config("k.bin", Rsa)
    ensures SelectArgs(Filesystem, 3, ["keyimport", "k.bin", "--help"]) == Config("k.bin", Rsa)
    ensures SelectArgs(Filesystem, 2, ["keyimport", "k.bin", "ECC"]) == Config("k.bin", Rsa)
    ensures SelectArgs(NoFilesystem, 2, ["keyimport", "-?"]) == Config(DefaultOutput, Rsa)
  {
  }
}

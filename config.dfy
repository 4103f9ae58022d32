/**
 * Configuration of the export: GraphVizConfiguration (output directory, file name, whether ids
 * are exported, where the dot executable lives) and DependencySolverConfiguration (the model
 * paths). The operating-system name and the file separator are parameters.
 */
module Config {
  import opened Wrappers
  import opened Text

  /** The characters the regular expression `\s` matches. */
  predicate IsWhitespace(c: char)
  {
    c == ' ' || c == '\t' || c == '\n' || c == '\r' || c == '\U{B}' || c == '\U{C}'
  }

  /** The characters the regular expression `\d` matches. */
  predicate IsDigit(c: char)
  {
    '0' <= c <= '9'
  }

  /** The OS name as it is compared: every whitespace character and every digit deleted. */
  function NormaliseOsName(raw: string): (r: string)
    ensures forall i :: 0 <= i < |r| ==> !IsWhitespace(r[i]) && !IsDigit(r[i])
    ensures |r| <= |raw|
  {
    if raw == [] then []
    else
      var c := raw[|raw| - 1];
      NormaliseOsName(raw[..|raw| - 1]) + (if IsWhitespace(c) || IsDigit(c) then [] else [c])
  }

  /** Deleting characters keeps the others in their order: the name of a concatenation is the concatenation of the names. */
  lemma {:induction false} NormaliseOsNameAppend(a: string, b: string)
    ensures NormaliseOsName(a + b) == NormaliseOsName(a) + NormaliseOsName(b)
  {
    if b == [] {
      assert a + b == a;
    } else {
      var prefix := b[..|b| - 1];
      assert (a + b)[..|a + b| - 1] == a + prefix;
      assert (a + b)[|a + b| - 1] == b[|b| - 1];
      NormaliseOsNameAppend(a, prefix);
    }
  }

  /** A name without whitespace and digits is left as it is, so normalising twice is normalising once. */
  lemma {:induction false} NormaliseOsNameIdempotent(raw: string)
    ensures NormaliseOsName(NormaliseOsName(raw)) == NormaliseOsName(raw)
  {
    NormalisedIsFixed(NormaliseOsName(raw));
  }

  lemma {:induction false} NormalisedIsFixed(s: string)
    requires forall i :: 0 <= i < |s| ==> !IsWhitespace(s[i]) && !IsDigit(s[i])
    ensures NormaliseOsName(s) == s
  {
    if s != [] {
      NormalisedIsFixed(s[..|s| - 1]);
    }
  }

  const DOT_FOR_MAC_OSX := "/usr/local/bin/dot"
  const DOT_FOR_WINDOWS := "C:/Program Files (x86)/graphviz-2.38/release/bin/dot.exe"
  const DOT_FOR_LINUX := "/usr/bin/dot"
  const DEFAULT_OUTPUT_FILE_NAME := "default"

  /** The output directory as the exporters use it: empty, or ending with exactly the separator that was given or added. */
  function NormaliseOutputDir(dir: string, separator: string): (r: string)
    ensures dir == "" ==> r == ""
    ensures EndsWith(dir, separator) ==> r == dir
    ensures dir != "" && !EndsWith(dir, separator) ==> r == dir + separator
  {
    if dir != "" && !EndsWith(dir, separator) then dir + separator else dir
  }

  /** The normalised directory extends the given one and is empty or ends with the separator. */
  lemma NormaliseOutputDirShape(dir: string, separator: string)
    ensures dir <= NormaliseOutputDir(dir, separator)
    ensures NormaliseOutputDir(dir, separator) == "" || EndsWith(NormaliseOutputDir(dir, separator), separator)
  {
    var r := NormaliseOutputDir(dir, separator);
    if dir != "" && !EndsWith(dir, separator) {
      assert r[|r| - |separator|..] == separator;
    }
  }

  /** Normalising an already normalised directory changes nothing. */
  lemma NormaliseOutputDirIdempotent(dir: string, separator: string)
    ensures NormaliseOutputDir(NormaliseOutputDir(dir, separator), separator) == NormaliseOutputDir(dir, separator)
  {
    NormaliseOutputDirShape(dir, separator);
  }

  /**
   * Which dot executable is used: a path the user set wins; otherwise the (normalised) OS name
   * picks one, looking for "Windows", then "Linux", then "MacOSX".
   */
  function DotPathFor(userDotPath: Option<string>, osName: string): (r: Result<string>)
    ensures userDotPath.Some? ==> r == Success(userDotPath.value)
    ensures userDotPath.None? && Contains(osName, "Windows") ==> r == Success(DOT_FOR_WINDOWS)
    ensures userDotPath.None? && !Contains(osName, "Windows") && Contains(osName, "Linux") ==> r == Success(DOT_FOR_LINUX)
    ensures userDotPath.None? && !Contains(osName, "Windows") && !Contains(osName, "Linux") && Contains(osName, "MacOSX") ==>
      r == Success(DOT_FOR_MAC_OSX)
    ensures r.Fail? <==>
      userDotPath.None? && !Contains(osName, "Windows") && !Contains(osName, "Linux") && !Contains(osName, "MacOSX")
    ensures r.Fail? ==> r.error == UnsupportedOperation("Not implemented for used OS.")
  {
    match userDotPath
    case Some(path) => Success(path)
    case None =>
      if Contains(osName, "Windows") then Success(DOT_FOR_WINDOWS)
      else if Contains(osName, "Linux") then Success(DOT_FOR_LINUX)
      else if Contains(osName, "MacOSX") then Success(DOT_FOR_MAC_OSX)
      else Fail(UnsupportedOperation("Not implemented for used OS."))
  }

  /** A concrete OS name: the space and the digits of "Windows 10" are deleted. */
  lemma NormaliseWindowsTen()
    ensures NormaliseOsName("Windows 10") == "Windows"
  {
    assert "Windows 10" == "Windows" + " 10";
    NormaliseOsNameAppend("Windows", " 10");
    NormalisedIsFixed("Windows");
    assert " 10"[..2] == " 1" && " 1"[..1] == " " && " "[..0] == "";
  }

  /** On "Windows 10" without a user path, the Windows executable is chosen. */
  lemma WindowsTenFindsWindowsDot()
    ensures DotPathFor(None, NormaliseOsName("Windows 10")) == Success(DOT_FOR_WINDOWS)
  {
    NormaliseWindowsTen();
    assert "Windows" <= "Windows"[0..];
  }

  class GraphVizConfiguration {
    /** The OS name after normalisation. */
    const osName: string
    /** The platform's file separator. */
    const separator: string
    var userDotPath: Option<string>
    var outputDir: string
    var outputFileName: string
    var exportIds: bool

    /** Stores the output directory; the rest takes its defaults. The temporary directory is not part of this model. */
    constructor (outputDir: string, rawOsName: string, separator: string)
      ensures this.outputDir == outputDir && this.separator == separator
      ensures osName == NormaliseOsName(rawOsName)
      ensures userDotPath == None && outputFileName == DEFAULT_OUTPUT_FILE_NAME && !exportIds
    {
      osName := NormaliseOsName(rawOsName);
      this.separator := separator;
      userDotPath := None;
      this.outputDir := outputDir;
      outputFileName := DEFAULT_OUTPUT_FILE_NAME;
      exportIds := false;
    }

    function IsExportIds(): bool
      reads this
    {
      exportIds
    }

    method SetExportIds(exportIds: bool)
      modifies this
      ensures IsExportIds() == exportIds
      ensures userDotPath == old(userDotPath) && outputDir == old(outputDir) && outputFileName == old(outputFileName)
    {
      this.exportIds := exportIds;
    }

    /** The output directory, with a separator added when it is missing. */
    function GetOutputDir(): (r: string)
      reads this
      ensures r == NormaliseOutputDir(outputDir, separator)
    {
      NormaliseOutputDir(outputDir, separator)
    }

    function GetOutputFileName(): string
      reads this
    {
      outputFileName
    }

    method SetOutputFileName(outputFileName: string)
      modifies this
      ensures GetOutputFileName() == outputFileName
      ensures userDotPath == old(userDotPath) && outputDir == old(outputDir) && exportIds == old(exportIds)
    {
      this.outputFileName := outputFileName;
    }

    /** Sets the user's dot path; None (a null path) clears it, so the OS picks the executable again. */
    method SetDotPath(dotPath: Option<string>)
      modifies this
      ensures userDotPath == dotPath
      ensures dotPath.Some? ==> GetDotPath() == Success(dotPath.value)
      ensures dotPath.None? ==> GetDotPath() == DotPathFor(None, osName)
      ensures outputDir == old(outputDir) && outputFileName == old(outputFileName) && exportIds == old(exportIds)
    {
      userDotPath := dotPath;
    }

    /** The dot executable, or UnsupportedOperation when no path was set and the OS is not recognised. */
    function GetDotPath(): (r: Result<string>)
      reads this
      ensures r == DotPathFor(userDotPath, osName)
    {
      DotPathFor(userDotPath, osName)
    }
  }

  const USAGE_MODEL_EXTENSION := ".usagemodel"
  const ALLOCATION_MODEL_EXTENSION := ".allocation"

  /** Where the solver reads the models from: fixed at construction. */
  class DependencySolverConfiguration {
    const baseDirectoryPath: string
    const baseFileName: string
    const separator: string

    constructor (baseDirectoryPath: string, baseFileName: string, separator: string)
      ensures this.baseDirectoryPath == baseDirectoryPath && this.baseFileName == baseFileName
      ensures this.separator == separator
    {
      this.baseDirectoryPath := baseDirectoryPath;
      this.baseFileName := baseFileName;
      this.separator := separator;
    }

    /** The path both model files share. */
    function BasePath(): string
    {
      baseDirectoryPath + separator + baseFileName
    }

    function GetUsageModelPath(): (r: string)
      ensures r == BasePath() + USAGE_MODEL_EXTENSION
    {
      baseDirectoryPath + separator + baseFileName + USAGE_MODEL_EXTENSION
    }

    function GetAllocationModelPath(): (r: string)
      ensures r == BasePath() + ALLOCATION_MODEL_EXTENSION
    {
      baseDirectoryPath + separator + baseFileName + ALLOCATION_MODEL_EXTENSION
    }

    /** The two paths share base, separator and name, and never coincide: the extensions tell them apart. */
    lemma ModelPathsDiffer()
      ensures GetUsageModelPath()[..|BasePath()|] == GetAllocationModelPath()[..|BasePath()|] == BasePath()
      ensures EndsWith(GetUsageModelPath(), USAGE_MODEL_EXTENSION) && EndsWith(GetAllocationModelPath(), ALLOCATION_MODEL_EXTENSION)
      ensures GetUsageModelPath() != GetAllocationModelPath()
    {
      var u, a, b := GetUsageModelPath(), GetAllocationModelPath(), BasePath();
      assert u[|b| + 1] == 'u' && a[|b| + 1] == 'a';
      assert u[|u| - |USAGE_MODEL_EXTENSION|..] == USAGE_MODEL_EXTENSION;
      assert a[|a| - |ALLOCATION_MODEL_EXTENSION|..] == ALLOCATION_MODEL_EXTENSION;
    }
  }
}

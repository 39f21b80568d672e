/** Loading a configuration document, and recovering from one that cannot be loaded: the
    broken file is kept aside under the first free `lucee-<type>.<N>.buggy` name of its
    directory, a default document is written in its place, and loading is tried once more. */
module RecoveringLoader {
  import opened Wrappers
  import opened Text
  import opened ConfigTree

  /** `StringUtil.endsWithIgnoreCase`, for ASCII case. */
  predicate EndsWithIgnoreCase(s: string, suffix: string) {
    |suffix| <= |s| &&
    forall i :: 0 <= i < |suffix| ==> Lower(s[|s| - |suffix| + i]) == Lower(suffix[i])
  }

  /** The format test of `_loadDocument`: a name ending in `.xml.cfm` or `.xml`, in any case,
      is read as XML; every other name as JSON. */
  predicate IsXmlName(name: string) {
    EndsWithIgnoreCase(name, ".xml.cfm") || EndsWithIgnoreCase(name, ".xml")
  }

  /** Two names that differ only in letter case are read in the same format. */
  lemma XmlNameIgnoresCase(a: string, b: string)
    requires LowerString(a) == LowerString(b)
    ensures IsXmlName(a) <==> IsXmlName(b)
  {
    forall i | 0 <= i < |a|
      ensures Lower(a[i]) == Lower(b[i])
    {
      assert LowerString(a)[i] == LowerString(b)[i];
    }
    EndsWithIgnoresCase(a, b, ".xml.cfm");
    EndsWithIgnoresCase(a, b, ".xml");
  }

  lemma EndsWithIgnoresCase(a: string, b: string, suffix: string)
    requires |a| == |b| && forall i :: 0 <= i < |a| ==> Lower(a[i]) == Lower(b[i])
    ensures EndsWithIgnoreCase(a, suffix) <==> EndsWithIgnoreCase(b, suffix)
  {
  }

  /** Why a document could not be loaded. */
  datatype LoadError =
    | FileMissing
    | Unparsable
    | NotAStruct
    | TemplateMissing(resource: string)

  /** `_loadDocument` on the file `name` of a directory whose files map names to their text.
      An XML document is parsed by `readXml` and its `cfLuceeConfiguration` element is the
      result; any other document is interpreted by `readJson` and must be a Struct. */
  function LoadDocument(files: map<string, string>, name: string,
                        readXml: string -> Option<Fields>, readJson: string -> Option<Value>)
    : (r: Result<Fields, LoadError>)
    ensures name !in files ==> r == Failure(FileMissing)
    ensures name in files && IsXmlName(name) ==>
              match readXml(files[name])
              case None => r == Failure(Unparsable)
              case Some(data) => r == Success(StructAt(data, "cfLuceeConfiguration"))
    ensures name in files && !IsXmlName(name) ==>
              (r.Success? <==> readJson(files[name]).Some? && readJson(files[name]).value.Struct?) &&
              (r.Success? ==> Struct(r.value) == readJson(files[name]).value)
  {
    if name !in files then Failure(FileMissing)
    else if IsXmlName(name) then
      match readXml(files[name])
      case None => Failure(Unparsable)
      case Some(data) => Success(StructAt(data, "cfLuceeConfiguration"))
    else
      match readJson(files[name])
      case None => Failure(Unparsable)
      case Some(Struct(fields)) => Success(fields)
      case Some(_) => Failure(NotAStruct)
  }

  /** The name a broken `<type>` configuration is kept under: `lucee-<type>.<n>.buggy`. */
  function BuggyName(kind: string, n: nat): (s: string)
    ensures |s| == 13 + |kind| + |NatToString(n)|
    ensures s[..6] == "lucee-" && s[|s| - 6..] == ".buggy"
  {
    "lucee-" + kind + "." + NatToString(n) + ".buggy"
  }

  /** Different numbers give different names. */
  lemma BuggyNameInjective(kind: string, a: nat, b: nat)
    requires BuggyName(kind, a) == BuggyName(kind, b)
    ensures a == b
  {
    var sa, sb := BuggyName(kind, a), BuggyName(kind, b);
    var start := 7 + |kind|;
    assert sa[start..|sa| - 6] == NatToString(a);
    assert sb[start..|sb| - 6] == NatToString(b);
    NatToStringInjective(a, b);
  }

  /** The names the probe has looked at before reaching `n`. */
  ghost function BuggyNames(kind: string, n: nat): set<string> {
    set m | 1 <= m < n :: BuggyName(kind, m)
  }

  /** Looking at one more number adds one new name. */
  lemma BuggyNamesStep(kind: string, n: nat)
    requires n >= 1
    ensures BuggyName(kind, n) !in BuggyNames(kind, n)
    ensures BuggyNames(kind, n + 1) == BuggyNames(kind, n) + {BuggyName(kind, n)}
  {
    forall m | 1 <= m < n
      ensures BuggyName(kind, m) != BuggyName(kind, n)
    {
      if BuggyName(kind, m) == BuggyName(kind, n) {
        BuggyNameInjective(kind, m, n);
      }
    }
  }

  /** `n` is the number the probe stops at: the smallest `n >= 1` whose name is not taken. */
  predicate IsFirstFreeBuggyNumber(names: set<string>, kind: string, n: nat) {
    n >= 1 && BuggyName(kind, n) !in names &&
    forall m :: 1 <= m < n ==> BuggyName(kind, m) in names
  }

  /** There is only one such number. */
  lemma FirstFreeBuggyNumberUnique(names: set<string>, kind: string, a: nat, b: nat)
    requires IsFirstFreeBuggyNumber(names, kind, a) && IsFirstFreeBuggyNumber(names, kind, b)
    ensures a == b
  {
  }

  /** The probe from `n` on, once every name below `n` is known to be taken; it ends because
      every name it passes is one of the finitely many taken names. */
  function FirstFreeFrom(names: set<string>, kind: string, n: nat): (r: nat)
    requires n >= 1 && BuggyNames(kind, n) <= names
    ensures r >= n && IsFirstFreeBuggyNumber(names, kind, r)
    decreases names - BuggyNames(kind, n)
  {
    BuggyNamesStep(kind, n);
    if BuggyName(kind, n) in names then FirstFreeFrom(names, kind, n + 1) else n
  }

  /** The number the probe picks in a directory holding `names`. */
  function FirstFreeBuggyNumber(names: set<string>, kind: string): (r: nat)
    ensures IsFirstFreeBuggyNumber(names, kind, r)
  {
    assert BuggyNames(kind, 1) == {};
    FirstFreeFrom(names, kind, 1)
  }

  /** The path of the default `<type>` document among the engine's resources. */
  function TemplatePath(kind: string): string {
    "/resource/config/" + kind + ".json"
  }

  /** The files after a broken `name` is kept aside: copied to the first free buggy name and
      deleted. This overwrites nothing: every other file keeps its text, and the broken text is
      found under a name that was free. Nothing changes when `name` does not exist. */
  ghost function Quarantined(files: map<string, string>, name: string, kind: string): (q: map<string, string>)
    ensures name !in q
    ensures forall f :: f in files && f != name ==> f in q && q[f] == files[f]
    ensures var bug := BuggyName(kind, FirstFreeBuggyNumber(files.Keys, kind));
            name in files ==> bug !in files && bug in q && q[bug] == files[name]
    ensures name !in files ==> q == files
  {
    if name in files then
      files[BuggyName(kind, FirstFreeBuggyNumber(files.Keys, kind)) := files[name]] - {name}
    else files
  }

  /** A directory that still holds every other file of `names` and the name just used has
      its first free number past that name's: successive failures of the same `<type>`
      configuration are kept under increasing, hence distinct, numbers. */
  lemma {:induction false} QuarantineAdvances(names: set<string>, after: set<string>, name: string, kind: string)
    requires forall m: nat :: name != BuggyName(kind, m)
    requires names - {name} <= after
    requires BuggyName(kind, FirstFreeBuggyNumber(names, kind)) in after
    ensures FirstFreeBuggyNumber(after, kind) > FirstFreeBuggyNumber(names, kind)
  {
    var n1 := FirstFreeBuggyNumber(names, kind);
    forall m | 1 <= m <= n1
      ensures BuggyName(kind, m) in after
    {
      if m < n1 {
        assert BuggyName(kind, m) in names;
      }
    }
  }

  /** Two failures in a row on `name`, with the default written back between them, keep the
      two broken texts under different names, the second one's number being the larger. */
  lemma SuccessiveQuarantinesDistinct(files: map<string, string>, name: string, kind: string, template: string)
    requires name in files
    requires forall m: nat :: name != BuggyName(kind, m)
    ensures var first := Quarantined(files, name, kind)[name := template];
            FirstFreeBuggyNumber(first.Keys, kind) > FirstFreeBuggyNumber(files.Keys, kind)
  {
    var first := Quarantined(files, name, kind)[name := template];
    QuarantineAdvances(files.Keys, first.Keys, name, kind);
  }

  /** The directory a configuration file lives in, as a map from file names to their text. */
  class ConfigDirectory {
    var files: map<string, string>

    constructor (files: map<string, string>)
      ensures this.files == files
    {
      this.files := files;
    }

    /** The probe of `loadDocumentCreateIfFails`: counts up from 1 until the buggy name is free. */
    method ProbeBuggyNumber(kind: string) returns (n: nat)
      ensures n == FirstFreeBuggyNumber(files.Keys, kind)
    {
      n := 1;
      ghost var seen: set<string> := {};
      assert BuggyNames(kind, 1) == {};
      while BuggyName(kind, n) in files
        invariant n >= 1
        invariant seen == BuggyNames(kind, n) && seen <= files.Keys
        decreases files.Keys - seen
      {
        BuggyNamesStep(kind, n);
        seen := seen + {BuggyName(kind, n)};
        n := n + 1;
      }
      FirstFreeBuggyNumberUnique(files.Keys, kind, n, FirstFreeBuggyNumber(files.Keys, kind));
    }
  }

  /** `loadDocumentCreateIfFails(configFile, type)` for the file `name` of `dir`: when loading
      fails, an existing file is kept aside (`Quarantined`), the default document `templates`
      finds at `TemplatePath(kind)` is written in its place, and loading is tried again, its
      failure passed on; without a default document the call fails once the broken file has
      been kept aside. */
  method LoadDocumentCreateIfFails(dir: ConfigDirectory, name: string, kind: string,
                                   readXml: string -> Option<Fields>, readJson: string -> Option<Value>,
                                   templates: string -> Option<string>)
    returns (r: Result<Fields, LoadError>)
    modifies dir
    ensures var first := LoadDocument(old(dir.files), name, readXml, readJson);
            first.Success? ==> r == first && dir.files == old(dir.files)
    ensures var first := LoadDocument(old(dir.files), name, readXml, readJson);
            var kept := Quarantined(old(dir.files), name, kind);
            var template := templates(TemplatePath(kind));
            && (first.Failure? && template.None? ==>
                  r == Failure(TemplateMissing(TemplatePath(kind))) && dir.files == kept)
            && (first.Failure? && template.Some? ==>
                  dir.files == kept[name := template.value] &&
                  r == LoadDocument(dir.files, name, readXml, readJson))
  {
    var first := LoadDocument(dir.files, name, readXml, readJson);
    if first.Success? {
      return first;
    }
    if name in dir.files {
      var n := dir.ProbeBuggyNumber(kind);
      var bugFile := BuggyName(kind, n);
      dir.files := dir.files[bugFile := dir.files[name]];
      dir.files := dir.files - {name};
    }
    var resource := TemplatePath(kind);
    match templates(resource)
    case None =>
      return Failure(TemplateMissing(resource));
    case Some(text) =>
      dir.files := dir.files[name := text];
    r := LoadDocument(dir.files, name, readXml, readJson);
  }
}

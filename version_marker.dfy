/** The version markers of a Lucee context directory: the `version` file, whose text
    `"<version>-<releaseTime>"` tells `getNew` whether the engine was installed fresh, is
    unchanged, or was updated (and from which major version), and the `required-extension`
    file, which records the engine for which the required extensions were last installed. */
module VersionMarker {
  import opened Wrappers
  import opened Text

  /** The update types of `ConfigWebFactory`. */
  const NewNone: int := 0
  const NewMinor: int := 1
  const NewFresh: int := 2
  const NewFrom4: int := 3

  /** An OSGi version; only its major number is looked at. */
  datatype Version = Version(major: int, minor: int, micro: int, qualifier: string)

  /** `ConfigFactory.UpdateInfo`: the update type and, for an update, the version updated from. */
  datatype UpdateInfo = UpdateInfo(oldVersion: Option<Version>, updateType: int) {

    /** `getUpdateTypeAsString`: a name per known type; any other type is spelled out after the
        prefix `unkown:` (sic). Each of the four names comes from its type only. */
    function UpdateTypeAsString(): (s: string)
      ensures s == "new-none" <==> updateType == NewNone
      ensures s == "new-fresh" <==> updateType == NewFresh
      ensures s == "new-from4" <==> updateType == NewFrom4
      ensures s == "new-minor" <==> updateType == NewMinor
      ensures updateType !in {NewNone, NewMinor, NewFresh, NewFrom4} ==>
                |s| > 7 && s[..7] == "unkown:" && s[7..] == IntToString(updateType)
    {
      if updateType == NewNone then "new-none"
      else if updateType == NewFresh then "new-fresh"
      else if updateType == NewFrom4 then "new-from4"
      else if updateType == NewMinor then "new-minor"
      else
        var s := "unkown:" + IntToString(updateType);
        assert s[0] == 'u' && s[..7] == "unkown:";
        s
    }
  }

  /** `UpdateInfo.NEW_NONE` and `UpdateInfo.NEW_FRESH`. */
  const UpdateNone: UpdateInfo := UpdateInfo(None, NewNone)
  const UpdateFresh: UpdateInfo := UpdateInfo(None, NewFresh)

  /** What `engine.getInfo()` tells about the running engine. */
  datatype EngineInfo = EngineInfo(version: string, releaseTime: string) {
    /** The text both markers hold: the version, a dash, and the release time. */
    function MarkerText(): (s: string)
      ensures |s| == |version| + 1 + |releaseTime| && s[|version|] == '-'
      ensures s[..|version|] == version && s[|version| + 1..] == releaseTime
    {
      version + "-" + releaseTime
    }
  }

  /** Why an operation on a marker threw. */
  datatype MarkerError = ReadFailed | WriteFailed | MalformedVersion(text: string)

  /** What `getNew` returns when reading and writing the marker succeed: a fresh install when
      there is no marker, no update when it holds the current text, and otherwise an update from
      the version it names, from a 4.x engine when that version's major number is below 5. */
  function Classify(stored: Option<string>, current: string, toVersion: string -> Option<Version>)
    : (r: Result<UpdateInfo, MarkerError>)
    ensures r == Success(UpdateFresh) <==> stored.None?
    ensures r == Success(UpdateNone) <==> stored == Some(current)
    ensures r.Failure? <==> stored.Some? && stored.value != current && toVersion(stored.value).None?
    ensures r.Success? && r.value.oldVersion.Some? <==>
              stored.Some? && stored.value != current && toVersion(stored.value).Some?
    ensures r.Success? && r.value.oldVersion.Some? ==>
              r.value.oldVersion == toVersion(stored.value) &&
              (r.value.updateType == NewFrom4 <==> r.value.oldVersion.value.major < 5) &&
              (r.value.updateType == NewMinor <==> r.value.oldVersion.value.major >= 5)
  {
    if stored.None? then Success(UpdateFresh)
    else if stored.value == current then Success(UpdateNone)
    else match toVersion(stored.value)
      case None => Failure(MalformedVersion(stored.value))
      case Some(v) => Success(UpdateInfo(Some(v), if v.major < 5 then NewFrom4 else NewMinor))
  }

  /** Two update types with the same name are the same type. */
  lemma UpdateTypeNamesDistinct(a: UpdateInfo, b: UpdateInfo)
    requires a.UpdateTypeAsString() == b.UpdateTypeAsString()
    ensures a.updateType == b.updateType
  {
    var s := a.UpdateTypeAsString();
    var known := {NewNone, NewMinor, NewFresh, NewFrom4};
    if a.updateType !in known && b.updateType !in known {
      IntToStringInjective(a.updateType, b.updateType);
    }
  }

  /** Distinct integers have distinct decimal renderings. */
  lemma IntToStringInjective(a: int, b: int)
    requires IntToString(a) == IntToString(b)
    ensures a == b
  {
    if a < 0 {
      assert IntToString(a)[1..] == NatToString(-a);
      assert IntToString(b)[1..] == NatToString(-b);
      NatToStringInjective(-a, -b);
    } else {
      NatToStringInjective(a, b);
    }
  }

  /** A marker file of the context directory, with the faults its reads and writes may raise.
      `content` is `None` while the file does not exist; `writes` lists every text written to it. */
  class MarkerFile {
    var content: Option<string>
    var writes: seq<string>
    var readFails: bool
    var writeFails: bool

    constructor (content: Option<string>, readFails: bool, writeFails: bool)
      ensures this.content == content && writes == []
      ensures this.readFails == readFails && this.writeFails == writeFails
    {
      this.content := content;
      this.writes := [];
      this.readFails := readFails;
      this.writeFails := writeFails;
    }

    /** `resOldVersion.exists()`. */
    predicate Exists()
      reads this
    {
      content.Some?
    }

    /** `createNewFile()`: an empty file, when there was none. */
    method CreateNewFile()
      modifies this
      ensures content == (if old(content).None? then Some("") else old(content))
      ensures writes == old(writes) && readFails == old(readFails) && writeFails == old(writeFails)
    {
      if content.None? {
        content := Some("");
      }
    }

    /** `IOUtil.write(res, text, charset, false)`: the file holds exactly `text`, unless the write fails. */
    method Write(text: string) returns (r: Result<(), MarkerError>)
      modifies this
      ensures r.Success? <==> !writeFails
      ensures r.Success? ==> content == Some(text) && writes == old(writes) + [text]
      ensures r.Failure? ==> r.error == WriteFailed && content == old(content) && writes == old(writes)
      ensures readFails == old(readFails) && writeFails == old(writeFails)
    {
      if writeFails {
        return Failure(WriteFailed);
      }
      content := Some(text);
      writes := writes + [text];
      r := Success(());
    }

    /** `IOUtil.toString(res, charset)` on an existing file. */
    method Read() returns (r: Result<string, MarkerError>)
      requires Exists()
      ensures r.Success? <==> !readFails
      ensures r.Success? ==> r.value == content.value
      ensures r.Failure? ==> r.error == ReadFailed
    {
      if readFails {
        return Failure(ReadFailed);
      }
      r := Success(content.value);
    }
  }

  /** `getNew(engine, contextDir, readOnly)` on the `version` marker. The marker is written,
      after being created when missing, exactly when it is missing or holds another text than the
      engine's and `readOnly` is false; what is returned is `Classify` unless reading or writing
      the marker throws. In the update case the marker is written before the old text is parsed,
      so a malformed old text is replaced and still throws. */
  method GetNew(marker: MarkerFile, engine: EngineInfo, readOnly: bool, toVersion: string -> Option<Version>)
    returns (r: Result<UpdateInfo, MarkerError>)
    modifies marker
    ensures marker.readFails == old(marker.readFails) && marker.writeFails == old(marker.writeFails)
    ensures var stored, current := old(marker.content), engine.MarkerText();
            var unreadable := stored.Some? && marker.readFails;
            var rewrite := !readOnly && !unreadable && stored != Some(current);
            && (unreadable ==> r == Failure(ReadFailed))
            && (rewrite && marker.writeFails ==> r == Failure(WriteFailed))
            && (!unreadable && !(rewrite && marker.writeFails) ==> r == Classify(stored, current, toVersion))
            && (rewrite && !marker.writeFails ==>
                  marker.content == Some(current) && marker.writes == old(marker.writes) + [current])
            && (rewrite && marker.writeFails ==>
                  marker.content == (if stored.None? then Some("") else stored) && marker.writes == old(marker.writes))
            && (!rewrite ==> marker.content == stored && marker.writes == old(marker.writes))
  {
    var current := engine.MarkerText();
    // fresh install
    if !marker.Exists() {
      if !readOnly {
        marker.CreateNewFile();
        var written := marker.Write(current);
        if written.Failure? {
          return Failure(written.error);
        }
      }
      return Success(UpdateFresh);
    }
    // changed version
    var read := marker.Read();
    if read.Failure? {
      return Failure(read.error);
    }
    var oldText := read.value;
    if oldText != current {
      if !readOnly {
        var written := marker.Write(current);
        if written.Failure? {
          return Failure(written.error);
        }
      }
      match toVersion(oldText)
      case None =>
        return Failure(MalformedVersion(oldText));
      case Some(oldVersion) =>
        return Success(UpdateInfo(Some(oldVersion), if oldVersion.major < 5 then NewFrom4 else NewMinor));
    }
    r := Success(UpdateNone);
  }

  /** `getNew(engine, contextDir, readOnly, defaultValue)`: any exception yields `defaultValue`;
      the marker file is left exactly as the other overload leaves it. */
  method GetNewOr(marker: MarkerFile, engine: EngineInfo, readOnly: bool, toVersion: string -> Option<Version>,
                  defaultValue: UpdateInfo)
    returns (u: UpdateInfo)
    modifies marker
    ensures marker.readFails == old(marker.readFails) && marker.writeFails == old(marker.writeFails)
    ensures var stored, current := old(marker.content), engine.MarkerText();
            var unreadable := stored.Some? && marker.readFails;
            var rewrite := !readOnly && !unreadable && stored != Some(current);
            && (rewrite && !marker.writeFails ==>
                  marker.content == Some(current) && marker.writes == old(marker.writes) + [current])
            && (rewrite && marker.writeFails ==>
                  marker.content == (if stored.None? then Some("") else stored) && marker.writes == old(marker.writes))
            && (!rewrite ==> marker.content == stored && marker.writes == old(marker.writes))
    ensures var stored, current := old(marker.content), engine.MarkerText();
            var unreadable := stored.Some? && old(marker.readFails);
            var rewrite := !readOnly && !unreadable && stored != Some(current);
            var fails := unreadable || (rewrite && old(marker.writeFails));
            && (fails ==> u == defaultValue)
            && (!fails ==> u == match Classify(stored, current, toVersion)
                                case Success(info) => info
                                case Failure(_) => defaultValue)
  {
    var r := GetNew(marker, engine, readOnly, toVersion);
    u := match r
      case Success(info) => info
      case Failure(_) => defaultValue;
  }

  /** `updateRequiredExtension`: the `required-extension` marker is created when missing and
      set to the engine's marker text; a failure is only logged. */
  method UpdateRequiredExtension(marker: MarkerFile, engine: EngineInfo)
    modifies marker
    ensures marker.readFails == old(marker.readFails) && marker.writeFails == old(marker.writeFails)
    ensures !marker.writeFails ==>
              marker.content == Some(engine.MarkerText()) && marker.writes == old(marker.writes) + [engine.MarkerText()]
    ensures marker.writeFails ==>
              marker.content == (if old(marker.content).None? then Some("") else old(marker.content)) &&
              marker.writes == old(marker.writes)
  {
    if !marker.Exists() {
      marker.CreateNewFile();
    }
    var written := marker.Write(engine.MarkerText());
  }

  /** `isRequiredExtension`: true exactly when the marker exists, can be read and holds the
      engine's marker text; a failure is logged and answered with false. */
  method IsRequiredExtension(marker: MarkerFile, engine: EngineInfo) returns (b: bool)
    ensures b <==> marker.content == Some(engine.MarkerText()) && !marker.readFails
  {
    if !marker.Exists() {
      return false;
    }
    var read := marker.Read();
    if read.Failure? {
      return false;
    }
    b := read.value == engine.MarkerText();
  }

  /** Once the marker has been updated without fault, the check answers true for the same
      engine and false for an engine with another marker text. */
  method RequiredExtensionRoundTrip(marker: MarkerFile, engine: EngineInfo, other: EngineInfo)
    returns (same: bool, forOther: bool)
    requires !marker.writeFails && !marker.readFails
    modifies marker
    ensures same
    ensures forOther <==> other.MarkerText() == engine.MarkerText()
  {
    UpdateRequiredExtension(marker, engine);
    same := IsRequiredExtension(marker, engine);
    forOther := IsRequiredExtension(marker, other);
  }

  /** Two runs of `getNew` for the same engine on a writable, fault-free marker: the second
      reports no update, whatever the first found. */
  method GetNewTwice(marker: MarkerFile, engine: EngineInfo, toVersion: string -> Option<Version>)
    returns (first: Result<UpdateInfo, MarkerError>, second: Result<UpdateInfo, MarkerError>)
    requires !marker.writeFails && !marker.readFails
    modifies marker
    ensures first == Classify(old(marker.content), engine.MarkerText(), toVersion)
    ensures second == Success(UpdateNone)
  {
    first := GetNew(marker, engine, false, toVersion);
    second := GetNew(marker, engine, false, toVersion);
  }
}

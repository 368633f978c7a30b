/** The Piper voice engine (PiperTTSEngine in src/audio_module.py): voice
    metadata derived from voice ids, configuration migration, default-voice
    selection and streaming chunk indexing.  Model files, JSON parsing and
    the Piper synthesizer itself are inputs. */
module Voices {
  import opened Wrappers
  import Text
  import Synthesis

  const DefaultVoice: string := "en_US-lessac-medium"

  const DefaultSampleRate: nat := 22050

  /** Legacy engine name -> Piper voice. */
  const MigrationMap: map<string, string> := map[
    "coqui" := "en_US-lessac-medium",
    "kokoro" := "en_US-amy-medium",
    "orpheus" := "en_GB-alan-medium",
    "default" := "en_US-lessac-medium"]

  /** A JSON entry where the source expects a string: a string, or another
      scalar (null, a number or a boolean). */
  datatype Entry = Str(s: string) | NonString

  /** What the configuration file yields: absent, unparsable, or its
      'engine' and 'default_voice' entries. */
  datatype ConfigFile = Absent | Unreadable | Parsed(engine: Option<Entry>, defaultVoice: Option<Entry>)

  /** The configuration names a legacy engine that the migration map knows. */
  predicate Migrates(file: ConfigFile)
  {
    file.Parsed? && file.engine.Some? && file.engine.value.Str? && file.engine.value.s in MigrationMap
  }

  /** The default voice after loading (and migrating) the configuration.
      None is a non-string entry (JSON null, say), which names no voice. */
  function ConfiguredDefaultVoice(file: ConfigFile): (voice: Option<string>)
    ensures !file.Parsed? ==> voice == Some(DefaultVoice)
    ensures Migrates(file) ==> voice == Some(MigrationMap[file.engine.value.s])
    ensures file.Parsed? && !Migrates(file) && file.defaultVoice.None? ==> voice == Some(DefaultVoice)
    ensures file.Parsed? && !Migrates(file) && file.defaultVoice.Some? && file.defaultVoice.value.Str? ==>
      voice == Some(file.defaultVoice.value.s)
    ensures voice.None? <==> file.Parsed? && !Migrates(file) && file.defaultVoice == Some(NonString)
  {
    match file
    case Absent => Some(DefaultVoice)
    case Unreadable => Some(DefaultVoice)
    case Parsed(engine, configured) =>
      if Migrates(file) then Some(MigrationMap[engine.value.s])
      else match configured {
        case None => Some(DefaultVoice)
        case Some(Str(v)) => Some(v)
        case Some(NonString) => None
      }
  }

  function RegionName(lang: string, region: string): string
  {
    if lang == "en" then
      if region == "US" then "US English"
      else if region == "GB" then "British English"
      else region + " English"
    else lang + "-" + region
  }

  /** "en_US-lessac-medium" -> "US English (Lessac)"; an id with fewer than
      two parts is returned as it is. */
  function DisplayName(voiceId: string): (name: string)
    ensures name == voiceId || (|name| >= 2 && name[|name| - 1] == ')')
  {
    var parts := Text.Split(Text.ReplaceChar(voiceId, '_', '-'), '-');
    if |parts| >= 2 then
      var name := if |parts| > 2 then parts[2] else "voice";
      RegionName(parts[0], parts[1]) + " (" + Text.Capitalize(name) + ")"
    else voiceId
  }

  predicate Plain(s: string)
  {
    '-' !in s && '_' !in s
  }

  lemma ReplacePlain(s: string)
    requires '_' !in s
    ensures Text.ReplaceChar(s, '_', '-') == s
  {
  }

  /** Replacing the one underscore after the language. */
  lemma UnderscoreToDash(lang: string, rest: string)
    requires '_' !in lang && '_' !in rest
    ensures Text.ReplaceChar(lang + "_" + rest, '_', '-') == lang + "-" + rest
  {
    var id := lang + "_" + rest;
    var dashed := lang + "-" + rest;
    forall i | 0 <= i < |id|
      ensures Text.ReplaceChar(id, '_', '-')[i] == dashed[i]
    {
      if i < |lang| {
        assert id[i] == lang[i] && dashed[i] == lang[i];
      } else if i > |lang| {
        assert id[i] == rest[i - |lang| - 1] == dashed[i];
      }
    }
  }

  /** An id of the form lang_REGION-name-quality is named after its locale and speaker. */
  lemma DisplayNameOfVoiceId(lang: string, region: string, name: string, quality: string)
    requires Plain(lang) && Plain(region) && Plain(name) && Plain(quality)
    ensures DisplayName(lang + "_" + region + "-" + name + "-" + quality)
         == RegionName(lang, region) + " (" + Text.Capitalize(name) + ")"
  {
    var dashed := lang + "-" + region + "-" + name + "-" + quality;
    assert lang + "_" + region + "-" + name + "-" + quality == lang + "_" + (region + "-" + name + "-" + quality);
    assert dashed == lang + "-" + (region + "-" + name + "-" + quality);
    UnderscoreToDash(lang, region + "-" + name + "-" + quality);
    var parts := [lang, region, name, quality];
    assert Text.Join(parts, '-') == dashed by {
      assert Text.Join([quality], '-') == quality;
      assert [name, quality][1..] == [quality];
      assert Text.Join([name, quality], '-') == name + "-" + quality;
      assert [region, name, quality][1..] == [name, quality];
      assert Text.Join([region, name, quality], '-') == region + "-" + name + "-" + quality;
      assert parts[1..] == [region, name, quality];
    }
    Text.SplitJoin(parts, '-');
  }

  /** Without a third part the speaker defaults to "Voice". */
  lemma DisplayNameWithoutSpeaker(lang: string, region: string)
    requires Plain(lang) && Plain(region)
    ensures DisplayName(lang + "_" + region) == RegionName(lang, region) + " (Voice)"
  {
    var dashed := lang + "-" + region;
    UnderscoreToDash(lang, region);
    var parts := [lang, region];
    assert Text.Join(parts, '-') == dashed by {
      assert parts[1..] == [region];
    }
    Text.SplitJoin(parts, '-');
    assert Text.Split(Text.ReplaceChar(lang + "_" + region, '_', '-'), '-') == parts;
    assert DisplayName(lang + "_" + region) == RegionName(lang, region) + " (" + Text.Capitalize("voice") + ")";
    CapitalizeExamples();
  }

  /** An id with no separator at all is its own display name. */
  lemma DisplayNameOfPlainId(voiceId: string)
    requires Plain(voiceId)
    ensures DisplayName(voiceId) == voiceId
  {
    ReplacePlain(voiceId);
  }

  lemma CapitalizeExamples()
    ensures Text.Capitalize("lessac") == "Lessac" && Text.Capitalize("alan") == "Alan"
    ensures Text.Capitalize("voice") == "Voice"
  {
  }

  /** en_US-lessac-medium, written out from its parts. */
  lemma DisplayNameOfDefaultVoice()
    ensures DisplayName("en" + "_" + "US" + "-" + "lessac" + "-" + "medium") == "US English (Lessac)"
  {
    CapitalizeExamples();
    DisplayNameOfVoiceId("en", "US", "lessac", "medium");
  }

  /** The locale part: the two named English regions, any other English
      region, and any other language. */
  lemma RegionNameExamples()
    ensures RegionName("en", "GB") == "British English"
    ensures RegionName("en", "AU") == "AU English"
    ensures RegionName("de", "DE") == "de-DE"
  {
  }

  /** "-low" wins over "-high"; anything else is "medium". */
  function Quality(voiceId: string): (q: string)
    ensures q == "low" || q == "medium" || q == "high"
    ensures q == "medium" <==> !Text.Contains(voiceId, "-low") && !Text.Contains(voiceId, "-high")
  {
    if Text.Contains(voiceId, "-low") then "low"
    else if Text.Contains(voiceId, "-high") then "high"
    else "medium"
  }

  lemma QualityExamples()
    ensures Quality("en_US-amy-low") == "low"
    ensures Quality("en_US-lessac-low-high") == "low"
  {
    Text.ContainsInfix("en_US-amy-low", "-low", "en_US-amy", "");
    assert "en_US-amy" + "-low" + "" == "en_US-amy-low";
    Text.ContainsInfix("en_US-lessac-low-high", "-low", "en_US-lessac", "-high");
    assert "en_US-lessac" + "-low" + "-high" == "en_US-lessac-low-high";
  }

  const MaleNames: seq<string> := ["alan", "joe", "john", "danny", "ryan"]
  const FemaleNames: seq<string> := ["amy", "lessac", "kathleen", "jenny", "sara"]
  const MaleTerms: seq<string> := ["male", "man", "boy"]
  const FemaleTerms: seq<string> := ["female", "woman", "girl"]

  /** any(w in s for w in words) */
  predicate AnyIn(s: string, words: seq<string>)
  {
    words != [] && (Text.Contains(s, words[0]) || AnyIn(s, words[1..]))
  }

  /** The id names a speaker of known gender, so the speaker name is not read. */
  predicate IdNamesSpeaker(voiceId: string)
  {
    AnyIn(Text.Lower(voiceId), MaleNames) || AnyIn(Text.Lower(voiceId), FemaleNames)
  }

  /** _infer_gender as written: names in the id, then the speaker name,
      male terms before female terms.  None when lower-casing a non-string
      speaker name raises. */
  function InferGender(voiceId: string, speakerName: Option<Entry>): (g: Option<string>)
    ensures g.None? <==> !IdNamesSpeaker(voiceId) && speakerName == Some(NonString)
    ensures g.Some? ==> g.value == "male" || g.value == "female" || g.value == "neutral"
  {
    var v := Text.Lower(voiceId);
    if AnyIn(v, MaleNames) then Some("male")
    else if AnyIn(v, FemaleNames) then Some("female")
    else match speakerName {
      case None => Some("neutral")
      case Some(NonString) => None
      case Some(Str(name)) =>
        var sp := Text.Lower(name);
        if AnyIn(sp, MaleTerms) then Some("male")
        else if AnyIn(sp, FemaleTerms) then Some("female")
        else Some("neutral")
    }
  }

  /** The speaker-name check with the female terms first, so that "female"
      and "woman" are no longer caught by "male" and "man". */
  function InferGenderIntended(voiceId: string, speakerName: Option<Entry>): (g: Option<string>)
    ensures g.None? <==> InferGender(voiceId, speakerName).None?
    ensures g.Some? ==> g.value == "male" || g.value == "female" || g.value == "neutral"
  {
    var v := Text.Lower(voiceId);
    if AnyIn(v, MaleNames) then Some("male")
    else if AnyIn(v, FemaleNames) then Some("female")
    else match speakerName {
      case None => Some("neutral")
      case Some(NonString) => None
      case Some(Str(name)) =>
        var sp := Text.Lower(name);
        if AnyIn(sp, FemaleTerms) then Some("female")
        else if AnyIn(sp, MaleTerms) then Some("male")
        else Some("neutral")
    }
  }

  lemma ContainsTransitive(s: string, mid: string, sub: string)
    requires Text.Contains(s, mid) && Text.Contains(mid, sub)
    ensures Text.Contains(s, sub)
  {
    var i :| 0 <= i <= |s| - |mid| && Text.OccursAt(s, mid, i);
    var j :| 0 <= j <= |mid| - |sub| && Text.OccursAt(mid, sub, j);
    assert s[i + j..i + j + |sub|] == sub by {
      forall k | 0 <= k < |sub|
        ensures s[i + j + k] == sub[k]
      {
        assert s[i..i + |mid|][j + k] == mid[j + k];
        assert mid[j..j + |sub|][k] == sub[k];
      }
    }
    assert Text.OccursAt(s, sub, i + j);
  }

  /** As written, a speaker name mentioning "female" or "woman" comes out
      "male" unless the id itself names a female speaker. */
  lemma InferGenderMisreadsFemale(voiceId: string, speaker: string)
    requires !AnyIn(Text.Lower(voiceId), FemaleNames)
    requires Text.Contains(Text.Lower(speaker), "female") || Text.Contains(Text.Lower(speaker), "woman")
    ensures InferGender(voiceId, Some(Str(speaker))) == Some("male")
  {
    var sp := Text.Lower(speaker);
    if Text.Contains(sp, "female") {
      Text.ContainsInfix("female", "male", "fe", "");
      assert "fe" + "male" + "" == "female";
      ContainsTransitive(sp, "female", "male");
      assert MaleTerms[0] == "male";
    } else {
      Text.ContainsInfix("woman", "man", "wo", "");
      assert "wo" + "man" + "" == "woman";
      ContainsTransitive(sp, "woman", "man");
      assert MaleTerms[1..][0] == "man";
      assert AnyIn(sp, MaleTerms[1..]);
    }
  }

  /** The corrected rule reads a female speaker name as female whenever the
      id itself names nobody, and still reads "male" as male. */
  lemma InferGenderIntendedReadsSpeaker(voiceId: string, speaker: string)
    requires !AnyIn(Text.Lower(voiceId), MaleNames) && !AnyIn(Text.Lower(voiceId), FemaleNames)
    ensures AnyIn(Text.Lower(speaker), FemaleTerms) ==> InferGenderIntended(voiceId, Some(Str(speaker))) == Some("female")
    ensures !AnyIn(Text.Lower(speaker), FemaleTerms) && AnyIn(Text.Lower(speaker), MaleTerms) ==>
      InferGenderIntended(voiceId, Some(Str(speaker))) == Some("male")
    ensures Text.Contains(Text.Lower(speaker), "female") ==> InferGenderIntended(voiceId, Some(Str(speaker))) == Some("female")
  {
    if Text.Contains(Text.Lower(speaker), "female") {
      assert FemaleTerms[0] == "female";
    }
  }

  /** The concrete case: an unnamed voice whose speaker is "female". */
  lemma FemaleSpeakerExample()
    ensures InferGender("x", Some(Str("female"))) == Some("male")
    ensures InferGenderIntended("x", Some(Str("female"))) == Some("female")
  {
    assert Text.Lower("x") == "x";
    assert !AnyIn("x", MaleNames);
    assert !AnyIn("x", FemaleNames);
    Text.ContainsItself("female");
    assert Text.Lower("female") == "female";
    InferGenderMisreadsFemale("x", "female");
    InferGenderIntendedReadsSpeaker("x", "female");
  }

  /** The per-voice configuration found beside a model file: its
      'speaker_name', 'language.code' and 'audio.sample_rate' entries. */
  datatype VoiceConfig = Missing | Broken
                       | Found(speakerName: Option<Entry>, languageCode: Option<string>, sampleRate: Option<nat>)

  /** A model file found in the model directory, in discovery order. */
  datatype DiscoveredVoice = DiscoveredVoice(voiceId: string, config: VoiceConfig)

  const DefaultLanguage: string := "en-US"

  datatype VoiceProfile = VoiceProfile(voiceId: string, displayName: string, language: string, gender: string,
                                       quality: string, sampleRate: nat)

  /** The profile one loop pass of _load_voice_profiles builds; None when
      building it raises (and the voice is skipped). */
  function MakeProfile(voiceId: string, speakerName: Option<Entry>, languageCode: Option<string>, sampleRate: Option<nat>)
    : (p: Option<VoiceProfile>)
    ensures p.None? <==> !IdNamesSpeaker(voiceId) && speakerName == Some(NonString)
    ensures p.Some? ==>
      && p.value.voiceId == voiceId
      && p.value.displayName == DisplayName(voiceId)
      && p.value.language == languageCode.GetOr(DefaultLanguage)
      && Some(p.value.gender) == InferGender(voiceId, speakerName)
      && p.value.quality == Quality(voiceId)
      && p.value.sampleRate == sampleRate.GetOr(DefaultSampleRate)
  {
    var gender := InferGender(voiceId, speakerName);
    if gender.None? then None
    else Some(VoiceProfile(voiceId, DisplayName(voiceId), languageCode.GetOr(DefaultLanguage), gender.value,
                           Quality(voiceId), sampleRate.GetOr(DefaultSampleRate)))
  }

  /** The profile a discovered model yields: None without a readable
      configuration, or when building the profile raises. */
  function ProfileOf(d: DiscoveredVoice): Option<VoiceProfile>
  {
    if d.config.Found? then MakeProfile(d.voiceId, d.config.speakerName, d.config.languageCode, d.config.sampleRate)
    else None
  }

  /** The ids of the discovered voices that yield a profile. */
  function UsableIds(found: seq<DiscoveredVoice>): set<string>
  {
    if found == [] then {}
    else UsableIds(found[..|found| - 1]) + (if ProfileOf(found[|found| - 1]).Some? then {found[|found| - 1].voiceId} else {})
  }

  /** The discovery order after one model: a usable id not yet listed is appended. */
  function AddToOrder(order: seq<string>, d: DiscoveredVoice): seq<string>
  {
    if ProfileOf(d).Some? && d.voiceId !in order then order + [d.voiceId] else order
  }

  /** The discovery order after registering `found` on top of `order`. */
  function Register(order: seq<string>, found: seq<DiscoveredVoice>): seq<string>
  {
    if found == [] then order else AddToOrder(Register(order, found[..|found| - 1]), found[|found| - 1])
  }

  /** The profiles after one model: a usable one gets (or replaces) its profile. */
  function AddProfile(profiles: map<string, VoiceProfile>, d: DiscoveredVoice): map<string, VoiceProfile>
  {
    var p := ProfileOf(d);
    if p.Some? then profiles[d.voiceId := p.value] else profiles
  }

  /** The profiles after loading `found` on top of `profiles`: a later
      model with the same id replaces the earlier profile. */
  function LoadProfiles(profiles: map<string, VoiceProfile>, found: seq<DiscoveredVoice>): map<string, VoiceProfile>
  {
    if found == [] then profiles else AddProfile(LoadProfiles(profiles, found[..|found| - 1]), found[|found| - 1])
  }

  /** Loading adds exactly the usable ids to the known ones. */
  lemma {:induction false} LoadProfilesKeys(profiles: map<string, VoiceProfile>, found: seq<DiscoveredVoice>)
    ensures LoadProfiles(profiles, found).Keys == profiles.Keys + UsableIds(found)
    decreases |found|
  {
    if found != [] {
      LoadProfilesKeys(profiles, found[..|found| - 1]);
    }
  }

  /** The first discovered voice that yields a profile. */
  function FirstUsable(found: seq<DiscoveredVoice>): Option<string>
  {
    if found == [] then None
    else if ProfileOf(found[0]).Some? then Some(found[0].voiceId)
    else FirstUsable(found[1..])
  }

  lemma {:induction false} FirstUsableAppend(found: seq<DiscoveredVoice>, d: DiscoveredVoice)
    ensures FirstUsable(found + [d])
         == if FirstUsable(found).Some? then FirstUsable(found)
            else if ProfileOf(d).Some? then Some(d.voiceId) else None
    decreases |found|
  {
    if found != [] {
      assert (found + [d])[1..] == found[1..] + [d];
      FirstUsableAppend(found[1..], d);
    }
  }

  /** Registering into an empty order lists the first usable voice first. */
  lemma {:induction false} RegisterFirst(found: seq<DiscoveredVoice>)
    ensures Register([], found) == [] <==> FirstUsable(found).None?
    ensures Register([], found) != [] ==> Some(Register([], found)[0]) == FirstUsable(found)
    decreases |found|
  {
    if found != [] {
      var init, d := found[..|found| - 1], found[|found| - 1];
      assert found == init + [d];
      RegisterFirst(init);
      FirstUsableAppend(init, d);
    }
  }

  /** Every usable id is registered, and only those and the old ones. */
  lemma {:induction false} RegisterMembers(order: seq<string>, found: seq<DiscoveredVoice>)
    ensures forall id :: id in Register(order, found) <==> id in order || id in UsableIds(found)
    decreases |found|
  {
    if found != [] {
      RegisterMembers(order, found[..|found| - 1]);
    }
  }

  /** Registering never lists an id twice. */
  lemma {:induction false} RegisterNoDuplicates(order: seq<string>, found: seq<DiscoveredVoice>)
    requires NoDuplicates(order)
    ensures NoDuplicates(Register(order, found))
    decreases |found|
  {
    if found != [] {
      RegisterNoDuplicates(order, found[..|found| - 1]);
    }
  }

  /** ZeroSampleRate is the ZeroDivisionError of a chunk duration computed
      against a profile whose sample rate is 0; PiperUnavailable is the
      RuntimeError raised when the piper library is missing, and LoadFailed
      the re-raised failure of PiperVoice.load. */
  datatype EngineError = ModelDirectoryMissing | NoVoiceModels | VoiceNotAvailable(voiceId: Option<string>)
                       | ZeroSampleRate(voice: string) | PiperUnavailable | LoadFailed(voice: string)

  /** One streamed piece of audio. */
  datatype AudioOutput = AudioOutput(audio: Synthesis.Bytes, sampleRate: nat, durationMs: real, chunkIndex: nat,
                                     isFinal: bool, voiceId: string)

  /** The playing time in milliseconds of 16-bit mono audio: two bytes a
      sample, an odd trailing byte ignored. */
  function DurationMs(audio: Synthesis.Bytes, sampleRate: nat): (ms: real)
    requires sampleRate > 0
    ensures ms >= 0.0
    ensures ms * sampleRate as real == (|audio| / 2) as real * 1000.0
  {
    (|audio| / 2) as real / sampleRate as real * 1000.0
  }

  predicate NoDuplicates<T(==)>(xs: seq<T>)
  {
    forall i, j :: 0 <= i < j < |xs| ==> xs[i] != xs[j]
  }

  class PiperTTSEngine {
    /** voice id -> profile, and the ids in the order they were discovered. */
    var profiles: map<string, VoiceProfile>
    var discoveryOrder: seq<string>
    var currentVoiceId: Option<string>
    /** Voices whose model has been loaded. */
    var loadedVoices: set<string>

    ghost predicate Valid()
      reads this
    {
      NoDuplicates(discoveryOrder)
      && (forall id :: id in profiles <==> id in discoveryOrder)
      && (currentVoiceId.Some? ==> currentVoiceId.value in profiles)
      && |profiles| == |discoveryOrder|
      && loadedVoices <= profiles.Keys
    }

    constructor ()
      ensures Valid()
      ensures profiles == map[] && discoveryOrder == [] && currentVoiceId == None && loadedVoices == {}
    {
      profiles := map[];
      discoveryOrder := [];
      currentVoiceId := None;
      loadedVoices := {};
    }

    /** One step of _load_voice_profiles for a voice that yields a
        profile: its profile is stored (a repeated id replaces the
        earlier profile) and a new id is appended to the discovery order. */
    method AddVoice(id: string, p: VoiceProfile)
      requires Valid()
      modifies this`profiles, this`discoveryOrder
      ensures Valid()
      ensures profiles == old(profiles)[id := p]
      ensures profiles.Keys == old(profiles).Keys + {id}
      ensures discoveryOrder == old(discoveryOrder) + (if id !in old(discoveryOrder) then [id] else [])
    {
      if id !in profiles {
        discoveryOrder := discoveryOrder + [id];
      }
      profiles := profiles[id := p];
    }

    /** One model of _load_voice_profiles. */
    method LoadVoice(d: DiscoveredVoice)
      requires Valid()
      modifies this`profiles, this`discoveryOrder
      ensures Valid()
      ensures profiles == AddProfile(old(profiles), d)
      ensures discoveryOrder == AddToOrder(old(discoveryOrder), d)
    {
      var p := ProfileOf(d);
      if p.Some? {
        AddVoice(d.voiceId, p.value);
      }
    }

    /** _load_voice_profiles: registers every discovered model that yields
        a profile, keeping first-discovery order. */
    method LoadVoiceProfiles(found: seq<DiscoveredVoice>)
      requires Valid()
      modifies this`profiles, this`discoveryOrder
      ensures Valid()
      ensures discoveryOrder == Register(old(discoveryOrder), found)
      ensures profiles.Keys == old(profiles).Keys + UsableIds(found)
      ensures profiles == LoadProfiles(old(profiles), found)
      ensures old(discoveryOrder) == [] ==>
        (discoveryOrder == [] <==> FirstUsable(found).None?)
        && (discoveryOrder != [] ==> Some(discoveryOrder[0]) == FirstUsable(found))
    {
      for i := 0 to |found|
        invariant Valid()
        invariant discoveryOrder == Register(old(discoveryOrder), found[..i])
        invariant profiles == LoadProfiles(old(profiles), found[..i])
      {
        assert found[..i + 1][..i] == found[..i];
        LoadVoice(found[i]);
      }
      assert found[..|found|] == found;
      LoadProfilesKeys(old(profiles), found);
      RegisterFirst(found);
    }

    /** `voice in self.voice_profiles`: only a string naming a loaded profile is known. */
    predicate Known(voice: Option<string>)
      reads this
    {
      voice.Some? && voice.value in profiles
    }

    /** initialize: loads the configuration and the models, then selects the
        configured default if known, else the first discovered voice. */
    method Initialize(config: ConfigFile, found: Option<seq<DiscoveredVoice>>) returns (r: Outcome<EngineError>)
      requires Valid()
      modifies this`profiles, this`discoveryOrder, this`currentVoiceId
      ensures Valid()
      ensures found.None? ==> r == Fail(ModelDirectoryMissing)
      ensures found.None? ==> profiles == old(profiles) && discoveryOrder == old(discoveryOrder)
      ensures found.Some? ==> profiles == LoadProfiles(old(profiles), found.value)
      ensures found.Some? ==> discoveryOrder == Register(old(discoveryOrder), found.value)
      ensures r.Fail? ==> currentVoiceId == old(currentVoiceId)
      ensures found.Some? ==> (r.Fail? <==> profiles == map[])
      ensures r.Fail? && found.Some? ==> r.error == NoVoiceModels
      ensures r.Pass? && Known(ConfiguredDefaultVoice(config)) ==> currentVoiceId == ConfiguredDefaultVoice(config)
      ensures r.Pass? && !Known(ConfiguredDefaultVoice(config)) ==> currentVoiceId == Some(discoveryOrder[0])
      ensures r.Pass? && old(profiles) == map[] && !Known(ConfiguredDefaultVoice(config)) ==>
        currentVoiceId == FirstUsable(found.value)
    {
      var defaultVoice := ConfiguredDefaultVoice(config);
      if found.None? {
        return Fail(ModelDirectoryMissing);
      }
      LoadVoiceProfiles(found.value);
      if profiles == map[] {
        return Fail(NoVoiceModels);
      }
      if Known(defaultVoice) {
        currentVoiceId := defaultVoice;
      } else {
        currentVoiceId := Some(discoveryOrder[0]);
      }
      return Pass;
    }

    /** Only a known voice can become current; otherwise nothing changes. */
    method SetVoice(voiceId: string) returns (r: Outcome<EngineError>)
      requires Valid()
      modifies this`currentVoiceId
      ensures Valid()
      ensures r.Pass? <==> voiceId in profiles
      ensures r.Pass? ==> currentVoiceId == Some(voiceId)
      ensures r.Fail? ==> currentVoiceId == old(currentVoiceId) && r.error == VoiceNotAvailable(Some(voiceId))
    {
      if voiceId !in profiles {
        return Fail(VoiceNotAvailable(Some(voiceId)));
      }
      currentVoiceId := Some(voiceId);
      return Pass;
    }

    /** `voice_id or self.current_voice_id`: an empty id counts as none. */
    function TargetVoice(voiceId: Option<string>): (t: Option<string>)
      reads this
      ensures voiceId.Some? && voiceId.value != "" ==> t == voiceId
      ensures voiceId.None? || voiceId.value == "" ==> t == currentVoiceId
    {
      if voiceId.Some? && voiceId.value != "" then voiceId else currentVoiceId
    }

    /** synthesize_streaming over the pieces the voice yields for the text:
        one output per piece with indexes 0, 1, 2, ..., then an empty final
        marker carrying the piece count, only if there was a piece.
        `libraryAvailable` says whether the piper library imported, and
        `loadSucceeds` whether PiperVoice.load accepts the target's model
        when it is not loaded yet.  The missing library fails first, then an
        unknown voice, then a failed load; the first piece's duration
        divides by the sample rate, so a rate of 0 fails before anything is
        yielded (the model is loaded by then). */
    method SynthesizeStreaming(libraryAvailable: bool, voiceId: Option<string>, loadSucceeds: bool,
                               pieces: seq<Synthesis.Bytes>)
      returns (r: Result<seq<AudioOutput>, EngineError>)
      requires Valid()
      modifies this`loadedVoices
      ensures Valid()
      ensures !libraryAvailable ==> r == Err(PiperUnavailable) && loadedVoices == old(loadedVoices)
      ensures
        var target := TargetVoice(voiceId);
        var known := target.Some? && target.value in profiles;
        var loads := known && (target.value in old(loadedVoices) || loadSucceeds);
        && (r.Err? <==> !libraryAvailable || !loads || (pieces != [] && profiles[target.value].sampleRate == 0))
        && (libraryAvailable && !known ==> r.error == VoiceNotAvailable(target) && loadedVoices == old(loadedVoices))
        && (libraryAvailable && known && !loads ==> r.error == LoadFailed(target.value) && loadedVoices == old(loadedVoices))
        && (libraryAvailable && loads ==> loadedVoices == old(loadedVoices) + {target.value})
        && (libraryAvailable && loads && pieces != [] && profiles[target.value].sampleRate == 0 ==>
              r.error == ZeroSampleRate(target.value))
        && (r.Ok? ==>
              var rate := profiles[target.value].sampleRate;
              && |r.value| == |pieces| + (if pieces == [] then 0 else 1)
              && (forall k :: 0 <= k < |pieces| ==>
                    r.value[k] == AudioOutput(pieces[k], rate, DurationMs(pieces[k], rate), k, false, target.value))
              && (pieces != [] ==> r.value[|pieces|] == AudioOutput([], rate, 0.0, |pieces|, true, target.value)))
    {
      if !libraryAvailable {
        return Err(PiperUnavailable);
      }
      var target := TargetVoice(voiceId);
      if target.None? || target.value !in profiles {
        return Err(VoiceNotAvailable(target));
      }
      var id := target.value;
      if id !in loadedVoices {
        if !loadSucceeds {
          return Err(LoadFailed(id));
        }
        loadedVoices := loadedVoices + {id};
      }
      var rate := profiles[id].sampleRate;
      if pieces != [] && rate == 0 {
        return Err(ZeroSampleRate(id));
      }
      var outputs: seq<AudioOutput> := [];
      var chunkIndex := 0;
      for i := 0 to |pieces|
        invariant chunkIndex == i == |outputs|
        invariant forall k :: 0 <= k < i ==> outputs[k] == AudioOutput(pieces[k], rate, DurationMs(pieces[k], rate), k, false, id)
      {
        outputs := outputs + [AudioOutput(pieces[i], rate, DurationMs(pieces[i], rate), chunkIndex, false, id)];
        chunkIndex := chunkIndex + 1;
      }
      if chunkIndex > 0 {
        outputs := outputs + [AudioOutput([], rate, 0.0, chunkIndex, true, id)];
      }
      return Ok(outputs);
    }
  }
}

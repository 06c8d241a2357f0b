/**
 * The constant tables of utils.py: the languages offered to the user and
 * the two tables keyed by model identifier (where a model lives on disk and
 * which hub repository it is downloaded from).
 */
module Catalog {

  /** The `Language` string enum; `Auto` means "no language hint". */
  datatype Language = Auto | English | Russian | Spanish | French | German | Italian | Portuguese {

    /** The enum member's string value. */
    function Value(): string {
      match this
      case Auto => "auto"
      case English => "en"
      case Russian => "ru"
      case Spanish => "es"
      case French => "fr"
      case German => "de"
      case Italian => "it"
      case Portuguese => "pt"
    }
  }

  /** The members of `Language` in declaration order (the language choices). */
  const Languages: seq<Language> :=
    [Auto, English, Russian, Spanish, French, German, Italian, Portuguese]

  /** The model identifiers, in the order the two tables list them. */
  const ModelIds: seq<string> :=
    ["tiny", "tiny.en", "base", "base.en", "small", "small.en",
     "medium", "medium.en", "large-v1", "large-v2", "large-v3", "large"]

  /** `AVAILABLE_MODELS`: model identifier to local model directory. */
  const AvailableModels: map<string, string> := map[
    "tiny" := "./models/models--Systran--faster-whisper-tiny",
    "tiny.en" := "./models/models--Systran--faster-whisper-tiny.en",
    "base" := "./models/models--Systran--faster-whisper-base",
    "base.en" := "./models/models--Systran--faster-whisper-base.en",
    "small" := "./models/models--Systran--faster-whisper-small",
    "small.en" := "./models/models--Systran--faster-whisper-small.en",
    "medium" := "./models/models--Systran--faster-whisper-medium",
    "medium.en" := "./models/models--Systran--faster-whisper-medium.en",
    "large-v1" := "./models/models--Systran--faster-whisper-large-v1",
    "large-v2" := "./models/models--Systran--faster-whisper-large-v2",
    "large-v3" := "./models/models--Systran--faster-whisper-large-v3",
    "large" := "./models/models--Systran--faster-whisper-large"
  ]

  /** `HF_MODEL_MAPPING`: model identifier to hub repository id. */
  const HfModelMapping: map<string, string> := map[
    "tiny" := "Systran/faster-whisper-tiny",
    "tiny.en" := "Systran/faster-whisper-tiny.en",
    "base" := "Systran/faster-whisper-base",
    "base.en" := "Systran/faster-whisper-base.en",
    "small" := "Systran/faster-whisper-small",
    "small.en" := "Systran/faster-whisper-small.en",
    "medium" := "Systran/faster-whisper-medium",
    "medium.en" := "Systran/faster-whisper-medium.en",
    "large-v1" := "Systran/faster-whisper-large-v1",
    "large-v2" := "Systran/faster-whisper-large-v2",
    "large-v3" := "Systran/faster-whisper-large-v3",
    "large" := "Systran/faster-whisper-large"
  ]

  /** The identifier the application starts with and falls back to. */
  const DefaultModel: string := "base"

  const RepoPrefix: string := "Systran/faster-whisper-"
  const ModelsDirPrefix: string := "./models/models--"

  /** The hub's cache naming: every '/' of a repository id becomes "--". */
  function SlashToDashes(s: string): (r: string)
    ensures '/' !in s ==> r == s
  {
    if s == [] then []
    else (if s[0] == '/' then "--" else [s[0]]) + SlashToDashes(s[1..])
  }

  lemma {:induction false} SlashToDashesAppend(a: string, b: string)
    ensures SlashToDashes(a + b) == SlashToDashes(a) + SlashToDashes(b)
  {
    if a != [] {
      assert (a + b)[1..] == a[1..] + b;
      SlashToDashesAppend(a[1..], b);
    } else {
      assert a + b == b;
    }
  }

  /** The local directory a repository id is stored under. */
  function LocalPathOf(repo: string): string {
    ModelsDirPrefix + SlashToDashes(repo)
  }

  /** The fallback/default model is in the table. */
  lemma DefaultModelAvailable()
    ensures DefaultModel in AvailableModels
    ensures AvailableModels[DefaultModel] == "./models/models--Systran--faster-whisper-base"
  {
  }

  /** Both tables have exactly the twelve identifiers of `ModelIds` as keys. */
  lemma SameKeys()
    ensures AvailableModels.Keys == HfModelMapping.Keys
    ensures forall id :: id in AvailableModels <==> id in ModelIds
    ensures |ModelIds| == 12
    ensures forall i, j :: 0 <= i < j < |ModelIds| ==> ModelIds[i] != ModelIds[j]
  {
  }

  /** Every repository id is the fixed hub prefix followed by the model id. */
  lemma RepoIdsFollowConvention()
    ensures forall id :: id in HfModelMapping ==> HfModelMapping[id] == RepoPrefix + id
  {
  }

  /** The directory every model of the tables is cached under, minus the model id. */
  const CacheDirPrefix: string := "./models/models--Systran--faster-whisper-"

  /** A model's local path is the fixed directory prefix followed by its id. */
  lemma LocalPathSpelledOut(id: string)
    requires id in AvailableModels
    ensures '/' !in id && AvailableModels[id] == CacheDirPrefix + id
  {
  }

  lemma SlashToDashesSlash(t: string)
    ensures SlashToDashes("/" + t) == "--" + SlashToDashes(t)
  {
    assert ("/" + t)[1..] == t;
  }
  lemma NoSlashAppend(a: string, b: string)
    requires '/' !in a && '/' !in b
    ensures '/' !in a + b
  {
    assert forall k :: 0 <= k < |a + b| ==> (a + b)[k] == if k < |a| then a[k] else b[k - |a|];
  }
  /** Replacing in `a/b` with both parts '/'-free only touches the one '/'. */
  lemma SlashToDashesOneSlash(a: string, b: string)
    requires '/' !in a && '/' !in b
    ensures SlashToDashes(a + "/" + b) == a + "--" + b
  {
    SlashToDashesAppend(a, "/" + b);
    SlashToDashesSlash(b);
    assert a + "/" + b == a + ("/" + b);
    assert a + "--" + b == a + ("--" + b);
  }

  lemma RepoIdJoin(id: string)
    ensures "Systran" + "/" + ("faster-whisper-" + id) == "Systran/faster-whisper-" + id
    ensures "Systran" + "--" + ("faster-whisper-" + id) == "Systran--faster-whisper-" + id
  {
  }

  /** A '/'-free model id's repository id turns into the directory name of that id. */
  lemma RepoCacheName(id: string)
    requires '/' !in id
    ensures SlashToDashes("Systran/faster-whisper-" + id) == "Systran--faster-whisper-" + id
  {
    calc {
      SlashToDashes("Systran/faster-whisper-" + id);
      { RepoIdJoin(id); }
      SlashToDashes("Systran" + "/" + ("faster-whisper-" + id));
      { NoSlashAppend("faster-whisper-", id); SlashToDashesOneSlash("Systran", "faster-whisper-" + id); }
      "Systran" + "--" + ("faster-whisper-" + id);
      { RepoIdJoin(id); }
      "Systran--faster-whisper-" + id;
    }
  }

  lemma CacheDirJoin(id: string)
    ensures ModelsDirPrefix + ("Systran--faster-whisper-" + id) == CacheDirPrefix + id
  {
  }

  /** A model's local path is the hub's cache name of its repository id. */
  lemma LocalPathFollowsConvention(id: string)
    requires id in AvailableModels
    ensures id in HfModelMapping && AvailableModels[id] == LocalPathOf(HfModelMapping[id])
  {
    SameKeys();
    RepoIdsFollowConvention();
    LocalPathSpelledOut(id);
    calc {
      LocalPathOf(HfModelMapping[id]);
      ModelsDirPrefix + SlashToDashes("Systran/faster-whisper-" + id);
      { RepoCacheName(id); }
      ModelsDirPrefix + ("Systran--faster-whisper-" + id);
      { CacheDirJoin(id); }
      AvailableModels[id];
    }
  }

  /** No two models share a local directory. */
  lemma LocalPathsDistinct()
    ensures forall a, b :: a in AvailableModels && b in AvailableModels && a != b ==>
      AvailableModels[a] != AvailableModels[b]
  {
    forall a, b | a in AvailableModels && b in AvailableModels && a != b
      ensures AvailableModels[a] != AvailableModels[b]
    {
      LocalPathSpelledOut(a);
      LocalPathSpelledOut(b);
      assert a == (CacheDirPrefix + a)[|CacheDirPrefix|..];
      assert b == (CacheDirPrefix + b)[|CacheDirPrefix|..];
    }
  }

  /** The eight language values are pairwise different. */
  lemma LanguageValuesDistinct()
    ensures |Languages| == 8
    ensures forall l: Language :: l in Languages
    ensures forall i, j :: 0 <= i < j < |Languages| ==> Languages[i].Value() != Languages[j].Value()
  {
    forall l: Language ensures l in Languages {
      match l
      case Auto => assert Languages[0] == l;
      case English => assert Languages[1] == l;
      case Russian => assert Languages[2] == l;
      case Spanish => assert Languages[3] == l;
      case French => assert Languages[4] == l;
      case German => assert Languages[5] == l;
      case Italian => assert Languages[6] == l;
      case Portuguese => assert Languages[7] == l;
    }
  }

  /** `Auto` is the only language whose value is "auto". */
  lemma OnlyAutoMeansNoHint(l: Language)
    ensures l.Value() == "auto" <==> l == Auto
  {
  }
}

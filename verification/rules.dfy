/**
 * The pure decisions of main.py: which language hint and which model
 * directory a job uses, and the output file name proposed when the user
 * picks an input file.
 */
module Rules {
  import opened Wrappers
  import opened Text
  import opened Catalog

  /**
   * The language hint handed to the recogniser: the special value "auto"
   * means no hint, every other code is passed through unchanged.
   */
  function ResolveLanguage(code: string): (hint: Option<string>)
    ensures hint == None <==> code == Auto.Value()
    ensures hint != None ==> hint.value == code
  {
    if code != "auto" then Some(code) else None
  }

  /** Of the selectable languages, exactly `Auto` yields no hint. */
  lemma ResolveSelectableLanguage(l: Language)
    ensures ResolveLanguage(l.Value()) == None <==> l == Auto
    ensures l != Auto ==> ResolveLanguage(l.Value()) == Some(l.Value())
  {
    OnlyAutoMeansNoHint(l);
  }

  /**
   * The outcome of looking a model id up: the directory to load and, when
   * the id is unknown, the log line announcing the substitution.
   */
  datatype ModelChoice = ModelChoice(path: string, notice: Option<string>)

  function NotFoundNotice(id: string): string {
    "Model '" + id + "' not found, using '" + DefaultModel + "'"
  }

  /**
   * `AVAILABLE_MODELS[id]`, falling back to the entry of "base" (with a log
   * line) when the id is not a key: resolution never fails.
   */
  function ResolveModel(id: string): (choice: ModelChoice)
    ensures choice.path in AvailableModels.Values
  {
    DefaultModelAvailable();
    if id in AvailableModels then ModelChoice(AvailableModels[id], None)
    else ModelChoice(AvailableModels[DefaultModel], Some(NotFoundNotice(id)))
  }

  /**
   * A known id gets its own directory and no log line; an unknown one gets
   * the directory of "base" and a log line that names the id.
   */
  lemma ResolveModelCases(id: string)
    ensures id in AvailableModels ==> ResolveModel(id) == ModelChoice(AvailableModels[id], None)
    ensures id !in AvailableModels ==>
      && ResolveModel(id).path == AvailableModels[DefaultModel]
      && ResolveModel(id).notice != None
      && ResolveModel(id).notice.value[|"Model '"|..|"Model '"| + |id|] == id
  {
    DefaultModelAvailable();
    if id !in AvailableModels {
      var n := NotFoundNotice(id);
      assert n == "Model '" + id + ("' not found, using '" + DefaultModel + "'");
    }
  }

  const TranscriptSuffix: string := "_transcript.txt"

  /**
   * The output name proposed for a chosen input: the input without its
   * last extension, followed by "_transcript.txt".
   */
  function DefaultOutputPath(input: string): (out: string)
    ensures |out| >= |TranscriptSuffix| && out[|out| - |TranscriptSuffix|..] == TranscriptSuffix
    ensures |out| - |TranscriptSuffix| <= |input| && out[..|out| - |TranscriptSuffix|] == input[..|out| - |TranscriptSuffix|]
  {
    SplitExtRoot(input) + TranscriptSuffix
  }

  /**
   * The proposed name keeps the input up to (not including) its extension,
   * which is empty or a single '.'-started component suffix, and ends in
   * the transcript suffix. The input is kept whole only when no '.' of its
   * last component has a character other than '.' before it there.
   */
  lemma DefaultOutputPathShape(input: string)
    ensures var out := DefaultOutputPath(input);
      var root := out[..|out| - |TranscriptSuffix|];
      && |out| >= |TranscriptSuffix|
      && out[|out| - |TranscriptSuffix|..] == TranscriptSuffix
      && root + SplitExtExt(input) == input
      && (SplitExtExt(input) == [] || (SplitExtExt(input)[0] == '.' && '.' !in SplitExtExt(input)[1..] && '/' !in SplitExtExt(input)))
    ensures SplitExtExt(input) == [] ==>
      forall d :: LastIndex(input, '/') < d < |input| && input[d] == '.' ==> AllDots(input[LastIndex(input, '/') + 1..d])
  {
    SplitExtJoin(input);
    SplitExtShape(input);
    SplitExtKeepsWholeOnlyWithoutExtension(input);
    var out := DefaultOutputPath(input);
    assert out[..|out| - |TranscriptSuffix|] == SplitExtRoot(input);
  }

  /** Only the last extension is removed. */
  lemma DefaultOutputPathExample()
    ensures DefaultOutputPath("/home/u/talk.final.wav") == "/home/u/talk.final_transcript.txt"
  {
    LastIndexIs("/home/u/talk.final.wav", '.', 18);
    LastIndexIs("/home/u/talk.final.wav", '/', 7);
    assert "/home/u/talk.final.wav"[8..18][0] == 't';
    assert "/home/u/talk.final.wav"[..18] == "/home/u/talk.final";
  }

  /** A dot in a directory name is no extension. */
  lemma DefaultOutputPathDottedDirectory()
    ensures DefaultOutputPath("/data.d/recording") == "/data.d/recording_transcript.txt"
  {
    LastIndexIs("/data.d/recording", '.', 5);
    LastIndexIs("/data.d/recording", '/', 7);
    assert "/data.d/recording"[..17] == "/data.d/recording";
  }

  /** A dot at the start of the file name is no extension. */
  lemma DefaultOutputPathLeadingDot()
    ensures DefaultOutputPath("/home/u/.ogg") == "/home/u/.ogg_transcript.txt"
  {
    LastIndexIs("/home/u/.ogg", '.', 8);
    LastIndexIs("/home/u/.ogg", '/', 7);
    assert AllDots("/home/u/.ogg"[8..8]);
    assert "/home/u/.ogg"[..12] == "/home/u/.ogg";
  }

  /**
   * What choosing an input file does to the two path fields: an empty
   * choice (dialog cancelled) changes nothing; otherwise the input is
   * taken, and the output is proposed only when it is still empty.
   */
  function PathsAfterBrowse(chosen: string, audio: string, output: string): (paths: (string, string))
    ensures chosen == "" ==> paths == (audio, output)
    ensures chosen != "" ==> paths.0 == chosen
    ensures chosen != "" && output != "" ==> paths.1 == output
    ensures chosen != "" && output == "" ==> paths.1 == DefaultOutputPath(chosen)
  {
    if chosen == "" then (audio, output)
    else (chosen, if output == "" then DefaultOutputPath(chosen) else output)
  }
}

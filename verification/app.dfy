/**
 * The application entry points: the per-user configuration callback and the
 * request handler that builds the pipeline on first use, looks for earlier
 * creations the prompt refers to, runs the pipeline and words the reply.
 * The module-level globals are the fields of `App`.
 */
module App {
  import opened Common
  import opened Text
  import opened Ledger
  import opened Pipeline

  /** A user's configuration; the handler reads only the app ids. */
  datatype ConfigClass = ConfigClass(appIds: seq<string>)

  // ---------------------------------------------------------------------
  // Reference detection and search terms

  /** "like" together with "last", "previous" or "before", as substrings of the lower-cased prompt. */
  predicate RefersToEarlier(userPrompt: string)
  {
    var p := Lower(userPrompt);
    Contains(p, "like") && (Contains(p, "last") || Contains(p, "previous") || Contains(p, "before"))
  }

  /** The detection as positions: "like" and one of the three words occur somewhere, inside words or not. */
  lemma RefersToEarlierAt(userPrompt: string)
    ensures var p := Lower(userPrompt);
            RefersToEarlier(userPrompt) <==>
              (exists i :: OccursAt(p, "like", i))
              && ((exists j :: OccursAt(p, "last", j)) || (exists j :: OccursAt(p, "previous", j))
                  || (exists j :: OccursAt(p, "before", j)))
  {
    var p := Lower(userPrompt);
    ContainsAt(p, "like");
    ContainsAt(p, "last");
    ContainsAt(p, "previous");
    ContainsAt(p, "before");
  }

  /** `[word for word in user_prompt.split() if len(word) > 3]`, case kept. */
  function SearchTerms(userPrompt: string): (terms: seq<string>)
  {
    LongWords(Split(userPrompt))
  }

  function LongWords(words: seq<string>): (long: seq<string>)
    ensures forall w :: w in long <==> w in words && |w| > 3
    ensures |long| <= |words|
  {
    if words == [] then []
    else
      var last := words[|words| - 1];
      assert words == words[..|words| - 1] + [last];
      LongWords(words[..|words| - 1]) + (if |last| > 3 then [last] else [])
  }

  /** Search terms are words of the prompt longer than three characters, and every such word is a term. */
  lemma SearchTermsSpec(userPrompt: string)
    ensures forall t :: t in SearchTerms(userPrompt) <==> t in Split(userPrompt) && |t| > 3
    ensures forall t :: t in SearchTerms(userPrompt) ==> NoSpace(t)
  {
  }

  /**
   * A prompt that refers to an earlier creation has at least one search term:
   * the four letters of "like" lie inside a word of more than three characters.
   */
  lemma ReferringHasTerm(userPrompt: string)
    requires RefersToEarlier(userPrompt)
    ensures SearchTerms(userPrompt) != []
  {
    var p := Lower(userPrompt);
    RefersToEarlierAt(userPrompt);
    var i :| OccursAt(p, "like", i);
    forall j | i <= j < i + 4 ensures !IsSpace(userPrompt[j]) {
      assert p[j] == "like"[j - i];
    }
    RunGivesWord(userPrompt, i, 4);
    var w :| w in Split(userPrompt) && |w| >= 4;
    assert w in SearchTerms(userPrompt);
  }

  /** The results of searching each term in turn, concatenated, repeats kept. */
  function Previous(rows: seq<CreationRecord>, terms: seq<string>): seq<CreationRecord>
  {
    if terms == [] then []
    else Previous(rows, terms[..|terms| - 1]) + Matching(rows, terms[|terms| - 1], None)
  }

  /** A row is among the earlier creations found exactly when some term matches it. */
  lemma {:induction false} PreviousExact(rows: seq<CreationRecord>, terms: seq<string>)
    ensures forall r :: r in Previous(rows, terms) <==> r in rows && exists t :: t in terms && SearchMatch(r, t, None)
    decreases |terms|
  {
    if terms != [] {
      var init := terms[..|terms| - 1];
      var last := terms[|terms| - 1];
      PreviousExact(rows, init);
      MatchingExact(rows, last, None);
      assert terms == init + [last];
    }
  }

  /** The loop over the search terms; every search goes to `memory`. */
  method FindPrevious(memory: MemoryManager, terms: seq<string>, storeUp: bool)
    returns (previous: seq<CreationRecord>)
    ensures previous == if storeUp then Previous(memory.rows, terms) else []
  {
    previous := [];
    for i := 0 to |terms|
      invariant previous == if storeUp then Previous(memory.rows, terms[..i]) else []
    {
      assert terms[..i + 1][..i] == terms[..i];
      var results := memory.SearchCreations(storeUp, terms[i]);
      if results != [] {
        previous := previous + results;
      }
    }
    assert terms[..|terms|] == terms;
  }

  const FoundOpen: string := "I found" + " a previous creation similar to what you're asking for. Using '"
  const FoundClose: string := "' as reference."
  const NotFound: string := "I couldn't" + " find any previous creations matching your request. Creating something new!"

  /**
   * The reference message: it names the first creation found, quoting its
   * prompt verbatim, or says that nothing was found.
   */
  function ReferenceMessage(previous: seq<CreationRecord>): (m: string)
    ensures IsPrefix("I found", m) <==> previous != []
    ensures previous != [] ==> OccursAt(m, previous[0].prompt, |FoundOpen|) && |m| == |FoundOpen| + |previous[0].prompt| + |FoundClose|
    ensures previous == [] ==> m == NotFound
  {
    if previous != [] then
      var m := FoundOpen + previous[0].prompt + FoundClose;
      Framed("I found", " a previous creation similar to what you're asking for. Using '" + previous[0].prompt, FoundClose);
      Framed(FoundOpen, previous[0].prompt, FoundClose);
      m
    else
      assert NotFound[2] == "I couldn't"[2] != "I found"[2];
      NotFound
  }

  // ---------------------------------------------------------------------
  // Replies

  const NotInitialized: string := "Error: Creative pipeline not initialized properly."
  /** The `AttributeError` raised by `memory_manager.search_creations` when there is no memory manager. */
  const NoManager: string := "'NoneType' object has no attribute 'search_creations'"
  const Processing: string := "Processing your creative request..."
  const Margin: string := "\n            "

  function DigitChar(d: nat): char
    requires d < 10
  {
    "0123456789"[d]
  }

  function NatToString(n: nat): (s: string)
    ensures s != [] && forall c :: c in s ==> '0' <= c <= '9'
  {
    if n < 10 then [DigitChar(n)] else NatToString(n / 10) + [DigitChar(n % 10)]
  }

  /** `str(i)` for an int. */
  function IntToString(i: int): (s: string)
    ensures s != []
    ensures s[0] == '-' <==> i < 0
  {
    if i < 0 then "-" + NatToString(-i)
    else
      var s := NatToString(i);
      assert s[0] in s;
      s
  }

  /** `str(v)` for a string that may be None. */
  function PyStr(v: Option<string>): string
  {
    if v.Some? then v.value else "None"
  }

  const SuccessHead: string := Margin + "Successfully created your vision!" + Margin + Margin + "Original prompt: \""

  /**
   * The success reply: it opens with the fixed heading, quotes the user's
   * prompt verbatim right after it, and reports the creation id.
   */
  function SuccessText(userPrompt: string, r: PipelineResult): (m: string)
    requires r.Success?
    ensures IsPrefix(SuccessHead, m) && OccursAt(m, userPrompt, |SuccessHead|)
    ensures Contains(m, "Creation ID: " + IntToString(r.creationId) + " (saved to memory for future reference)")
  {
    var middle := "\""
      + Margin + "Enhanced prompt: \"" + r.enhancedPrompt + "\"" + Margin
      + Margin + "Generated image saved to: " + PyStr(r.imagePath)
      + Margin + "Generated 3D model saved to: " + PyStr(r.modelPath) + Margin
      + Margin;
    var idLine := "Creation ID: " + IntToString(r.creationId) + " (saved to memory for future reference)";
    var m := SuccessHead + userPrompt + (middle + idLine + Margin);
    Framed(SuccessHead, userPrompt, middle + idLine + Margin);
    FramedContains(SuccessHead + userPrompt, middle, idLine, Margin);
    m
  }

  /** The reply for a pipeline result: "Error: " and the error text, or the success text. */
  function ResultMessage(userPrompt: string, r: PipelineResult): (m: string)
    ensures IsPrefix("Error: ", m) <==> r.Failure?
    ensures r.Failure? ==> m[|"Error: "|..] == r.error
  {
    if r.Failure? then
      var m := "Error: " + r.error;
      assert m[..7] == "Error: ";
      m
    else
      var m := SuccessText(userPrompt, r);
      assert m[0] == '\n';
      m
  }

  // ---------------------------------------------------------------------
  // The globals and the two callbacks

  class App {
    /** `configurations`: user id to configuration. */
    var configurations: map<string, ConfigClass>
    var creativePipeline: CreativePipeline?
    var memoryManager: MemoryManager?
    /** Whether `llm_client` is set; the client holds no state. */
    var llmClient: bool

    constructor ()
      ensures configurations == map[] && creativePipeline == null && memoryManager == null && !llmClient
    {
      configurations := map[];
      creativePipeline := null;
      memoryManager := null;
      llmClient := false;
    }

    /** `config`: stores every supplied user's configuration; the state argument is unused. */
    method Config(configuration: map<string, ConfigClass>)
      modifies this`configurations
      ensures configurations == old(configurations) + configuration
      ensures forall uid :: uid in configuration ==> uid in configurations && configurations[uid] == configuration[uid]
      ensures forall uid :: uid !in configuration && uid in old(configurations) ==>
                uid in configurations && configurations[uid] == old(configurations)[uid]
    {
      var pending := configuration.Keys;
      while pending != {}
        invariant pending <= configuration.Keys
        invariant configurations == old(configurations) + map uid | uid in configuration.Keys - pending :: configuration[uid]
        decreases pending
      {
        var uid :| uid in pending;
        configurations := configurations[uid := configuration[uid]];
        pending := pending - {uid};
      }
      assert configuration == map uid | uid in configuration.Keys - pending :: configuration[uid];
    }

    /** The store a run writes: the pipeline's memory, or the one a new pipeline would get. */
    function Target(): MemoryManager?
      reads this
    {
      if creativePipeline != null then creativePipeline.memory else memoryManager
    }

    function Writable(): set<object>
      reads this
    {
      if Target() != null then {Target()} else {}
    }

    /** Whether this call constructs the pipeline. */
    predicate Builds()
      reads this
    {
      creativePipeline == null && memoryManager != null && llmClient
    }

    /**
     * `executeInternal`: the reply, or the exception that escapes it (`Err`).
     * `dirsMade` is what the pipeline constructor's `os.makedirs` calls did;
     * `storeUp` says whether the reference searches reach the store.
     */
    method ExecuteInternal(appIds: seq<string>, userPrompt: string, env: Env, dirsMade: Effect, storeUp: bool)
      returns (outcome: Result<string, string>, processed: Option<PipelineResult>)
      requires creativePipeline != null ==> creativePipeline.memory.Valid() && env.now >= creativePipeline.memory.clock
      requires Builds() ==> memoryManager.Valid() && env.now >= memoryManager.clock
      modifies this`creativePipeline, Writable()
      ensures old(creativePipeline) != null ==> creativePipeline == old(creativePipeline)
      ensures old(creativePipeline) == null && !old(Builds()) ==>
                outcome == Ok(NotInitialized) && creativePipeline == null && processed == None
      ensures old(Builds()) && |appIds| < 2 ==>
                outcome == Err("list index out of range") && creativePipeline == null
      ensures old(Builds()) && |appIds| >= 2 && dirsMade.Failed? ==>
                outcome == Err(dirsMade.message) && creativePipeline == null
      ensures old(Builds()) && |appIds| >= 2 && dirsMade.Done? ==>
                && creativePipeline != null && fresh(creativePipeline)
                && creativePipeline.memory == memoryManager
                && creativePipeline.textToImageAppId == appIds[0]
                && creativePipeline.imageTo3dAppId == appIds[1]
                && creativePipeline.outputDir == "outputs"
      ensures creativePipeline != null ==>
                old(Target()) != null && creativePipeline.memory == old(Target()) && creativePipeline.memory.Valid()
      ensures creativePipeline != null && outcome.Ok? ==>
                var plan := PlanRun(creativePipeline.Config(), userPrompt, "super-user", env);
                && processed == Some(RunResult(plan, userPrompt, old(Target().State()), env))
                && outcome.value == ResultMessage(userPrompt, processed.value)
                && creativePipeline.memory.State() == AfterRun(plan, old(Target().State()), userPrompt, "super-user", env)
      ensures creativePipeline != null ==> (outcome.Err? <==> memoryManager == null && RefersToEarlier(userPrompt))
      ensures creativePipeline != null && outcome.Err? ==>
                && old(creativePipeline) == creativePipeline && outcome.error == NoManager
                && processed == None && unchanged(creativePipeline.memory)
      ensures creativePipeline == null && old(Target()) != null ==> processed == None && unchanged(old(Target()))
    {
      processed := None;
      if creativePipeline == null && memoryManager != null && llmClient {
        if |appIds| < 2 {
          return Err("list index out of range"), processed;
        }
        if dirsMade.Failed? {
          return Err(dirsMade.message), processed;
        }
        creativePipeline := new CreativePipeline(memoryManager, appIds[0], appIds[1], "outputs");
      }
      if creativePipeline != null {
        outcome, processed := Respond(creativePipeline, memoryManager, userPrompt, env, storeUp);
      } else {
        outcome := Ok(NotInitialized);
      }
    }
  }

  /**
   * The branch of `executeInternal` that has a pipeline: the reference search
   * (through `memory`, which may be None), then the run and its reply.
   */
  method Respond(pipeline: CreativePipeline, memory: MemoryManager?, userPrompt: string, env: Env, storeUp: bool)
    returns (outcome: Result<string, string>, processed: Option<PipelineResult>)
    requires pipeline.memory.Valid() && env.now >= pipeline.memory.clock
    modifies pipeline.memory
    ensures pipeline.memory.Valid()
    ensures outcome.Err? <==> memory == null && RefersToEarlier(userPrompt)
    ensures outcome.Err? ==> outcome.error == NoManager && processed == None && unchanged(pipeline.memory)
    ensures outcome.Ok? ==>
              var plan := PlanRun(pipeline.Config(), userPrompt, "super-user", env);
              && processed == Some(RunResult(plan, userPrompt, old(pipeline.memory.State()), env))
              && outcome.value == ResultMessage(userPrompt, processed.value)
              && pipeline.memory.State() == AfterRun(plan, old(pipeline.memory.State()), userPrompt, "super-user", env)
  {
    var message: string;
    if RefersToEarlier(userPrompt) {
      if memory == null {
        // The source raises on the first pass of the loop over the search terms;
        // there is always such a pass, because a referring prompt has a search term.
        ReferringHasTerm(userPrompt);
        return Err(NoManager), None;
      }
      var previous := FindPrevious(memory, SearchTerms(userPrompt), storeUp);
      message := ReferenceMessage(previous);
    } else {
      message := Processing;
    }
    var result, _ := pipeline.Process(userPrompt, env, "super-user");
    message := ResultMessage(userPrompt, result);
    return Ok(message), Some(result);
  }
}

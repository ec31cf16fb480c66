/**
 * The creative pipeline: enhance the prompt, generate an image, turn it into a
 * 3D model (with one fallback attempt), extract tags, persist the creation and
 * cache the session fields. Every remote call, file write and uuid is an
 * input (`Env`); `PlanRun` says what a run does with those inputs and
 * `CreativePipeline.Process` is proved to do exactly that.
 */
module Pipeline {
  import opened Common
  import opened Text
  import opened Ledger
  import opened Llm

  // ---------------------------------------------------------------------
  // Tags

  const Stopwords: set<string> := {"a", "the", "and", "of", "for", "with", "in", "on", "at"}
  const MaxTags: nat := 10

  /** `prompt.lower().replace(',', ' ').split()` */
  function Words(prompt: string): seq<string>
  {
    Split(ReplaceChar(Lower(prompt), ',', ' '))
  }

  predicate Qualifies(word: string)
  {
    |word| > 3 && word !in Stopwords
  }

  /**
   * The length test already excludes every stopword but "with": a word
   * qualifies exactly when it is longer than three characters and is not "with".
   */
  lemma QualifiesByLength()
    ensures forall w :: w in Stopwords && |w| > 3 ==> w == "with"
    ensures forall w :: Qualifies(w) <==> |w| > 3 && w != "with"
  {
    forall w | w in Stopwords && |w| > 3 ensures w == "with" {
      assert w == "a" || w == "the" || w == "and" || w == "of" || w == "for"
          || w == "with" || w == "in" || w == "on" || w == "at";
    }
  }

  /** The list the `for` loop builds: the qualifying words, in order, repeats kept. */
  function Candidates(words: seq<string>): (found: seq<string>)
    ensures forall w :: w in found <==> w in words && Qualifies(w)
    ensures |found| <= |words|
  {
    if words == [] then []
    else
      var last := words[|words| - 1];
      assert words == words[..|words| - 1] + [last];
      Candidates(words[..|words| - 1]) + (if Qualifies(last) then [last] else [])
  }

  predicate NoDuplicates(s: seq<string>)
  {
    forall i, j :: 0 <= i < j < |s| ==> s[i] != s[j]
  }

  /**
   * The `set` step. Python leaves the order of `list(set(tags))` unspecified;
   * this model keeps first occurrences in order, and the properties below do
   * not depend on that choice.
   */
  function Dedupe(s: seq<string>): (r: seq<string>)
    ensures NoDuplicates(r)
    ensures forall x :: x in r <==> x in s
    ensures |r| <= |s|
  {
    if s == [] then []
    else
      var init := Dedupe(s[..|s| - 1]);
      var last := s[|s| - 1];
      assert s == s[..|s| - 1] + [last];
      if last in init then init else init + [last]
  }

  /** `_extract_tags`: at most ten distinct qualifying words. */
  function Tags(prompt: string): seq<string>
  {
    var distinct := Dedupe(Candidates(Words(prompt)));
    if |distinct| <= MaxTags then distinct else distinct[..MaxTags]
  }

  /** The distinct qualifying words of a prompt, as a set. */
  ghost function QualifyingWords(prompt: string): set<string>
  {
    set w | w in Words(prompt) && Qualifies(w)
  }

  lemma {:induction false} DistinctCount(s: seq<string>)
    requires NoDuplicates(s)
    ensures |set x | x in s| == |s|
    decreases |s|
  {
    if s != [] {
      var init := s[..|s| - 1];
      DistinctCount(init);
      assert s == init + [s[|s| - 1]];
      assert (set x | x in s) == (set x | x in init) + {s[|s| - 1]};
    }
  }

  /**
   * Every tag is a word of the lower-cased, comma-free prompt, longer than
   * three characters and no stopword; tags are distinct and at most ten; when
   * there are at most ten qualifying words the tags are exactly those words.
   */
  lemma TagsSpec(prompt: string)
    ensures NoDuplicates(Tags(prompt)) && |Tags(prompt)| <= MaxTags
    ensures forall t :: t in Tags(prompt) ==> t in Words(prompt) && Qualifies(t)
    ensures |Tags(prompt)| == if |QualifyingWords(prompt)| <= MaxTags then |QualifyingWords(prompt)| else MaxTags
    ensures |QualifyingWords(prompt)| <= MaxTags ==> forall w :: w in QualifyingWords(prompt) <==> w in Tags(prompt)
  {
    var distinct := Dedupe(Candidates(Words(prompt)));
    DistinctCount(distinct);
    assert (set x | x in distinct) == QualifyingWords(prompt);
    var tags := Tags(prompt);
    forall t | t in tags ensures t in distinct {
      var k :| 0 <= k < |tags| && tags[k] == t;
      assert t == distinct[k];
    }
    assert NoDuplicates(tags) by {
      forall i, j | 0 <= i < j < |tags| ensures tags[i] != tags[j] {
        assert tags[i] == distinct[i] && tags[j] == distinct[j];
      }
    }
  }

  /** Tags are non-empty, hold no white space, no comma and no upper-case ASCII letter. */
  lemma TagsAreClean(prompt: string)
    ensures forall t :: t in Tags(prompt) ==> t != [] && NoSpace(t) && ',' !in t
    ensures forall t, c :: t in Tags(prompt) && c in t ==> !('A' <= c <= 'Z')
  {
    TagsSpec(prompt);
    var s := ReplaceChar(Lower(prompt), ',', ' ');
    assert ',' !in s;
    forall c | c in s ensures !('A' <= c <= 'Z') {
      var k :| 0 <= k < |s| && s[k] == c;
    }
  }

  /** The example prompt, written piece by piece: each piece is one word and what follows it. */
  const DragonPrompt: string :=
    "A " + ("Majestic " + ("Dragon, " + ("Glowing " + ("Scales, " + ("Golden " + "Hour")))))

  /** Lower-casing and blanking commas distribute over the pieces. */
  lemma SpacedAppend(a: string, b: string)
    ensures ReplaceChar(Lower(a + b), ',', ' ') == ReplaceChar(Lower(a), ',', ' ') + ReplaceChar(Lower(b), ',', ' ')
  {
    LowerAppend(a, b);
    ReplaceCharAppend(Lower(a), Lower(b), ',', ' ');
  }

  lemma DragonPieces()
    ensures ReplaceChar(Lower("A "), ',', ' ') == "a" + " "
    ensures ReplaceChar(Lower("Majestic "), ',', ' ') == "majestic" + " "
    ensures ReplaceChar(Lower("Dragon, "), ',', ' ') == "dragon" + " " + " "
    ensures ReplaceChar(Lower("Glowing "), ',', ' ') == "glowing" + " "
    ensures ReplaceChar(Lower("Scales, "), ',', ' ') == "scales" + " " + " "
    ensures ReplaceChar(Lower("Golden "), ',', ' ') == "golden" + " "
    ensures ReplaceChar(Lower("Hour"), ',', ' ') == "hour"
  {
  }

  /** The words of the example prompt, and the tags expected of it. */
  const DragonWordList: seq<string> := ["a", "majestic", "dragon", "glowing", "scales", "golden", "hour"]
  const DragonTagList: seq<string> := ["majestic", "dragon", "glowing", "scales", "golden", "hour"]

  /** The blanked, lower-cased example prompt as words joined by single spaces; each comma leaves an empty word. */
  const DragonParts: seq<string> := ["a", "majestic", "dragon", "", "glowing", "scales", "", "golden", "hour"]

  lemma DragonJoin()
    ensures Join(DragonParts, ' ')
            == "a" + " " + ("majestic" + " " + ("dragon" + " " + " " + ("glowing" + " "
               + ("scales" + " " + " " + ("golden" + " " + "hour")))))
  {
    JoinNine("a", "majestic", "dragon", "glowing", "scales", "golden", "hour");
  }

  /** The shape of the example: seven words, with an empty part after the third and the fifth. */
  lemma JoinNine(w1: string, w2: string, w3: string, w4: string, w5: string, w6: string, w7: string)
    ensures Join([w1, w2, w3, "", w4, w5, "", w6, w7], ' ')
            == w1 + " " + (w2 + " " + (w3 + " " + " " + (w4 + " " + (w5 + " " + " " + (w6 + " " + w7)))))
  {
    var p := [w1, w2, w3, "", w4, w5, "", w6, w7];
    assert Join(p[8..], ' ') == w7;
    assert Join(p[7..], ' ') == w6 + " " + w7;
    assert Join(p[6..], ' ') == "" + " " + (w6 + " " + w7);
    assert Join(p[5..], ' ') == w5 + " " + " " + (w6 + " " + w7);
    assert Join(p[4..], ' ') == w4 + " " + (w5 + " " + " " + (w6 + " " + w7));
    assert Join(p[3..], ' ') == "" + " " + (w4 + " " + (w5 + " " + " " + (w6 + " " + w7)));
    assert Join(p[2..], ' ') == w3 + " " + " " + (w4 + " " + (w5 + " " + " " + (w6 + " " + w7)));
    assert Join(p[1..], ' ') == w2 + " " + (w3 + " " + " " + (w4 + " " + (w5 + " " + " " + (w6 + " " + w7))));
  }

  lemma DragonSpaced()
    ensures ReplaceChar(Lower(DragonPrompt), ',', ' ') == Join(DragonParts, ' ')
  {
    SpacedAppend("A ", "Majestic " + ("Dragon, " + ("Glowing " + ("Scales, " + ("Golden " + "Hour")))));
    SpacedAppend("Majestic ", "Dragon, " + ("Glowing " + ("Scales, " + ("Golden " + "Hour"))));
    SpacedAppend("Dragon, ", "Glowing " + ("Scales, " + ("Golden " + "Hour")));
    SpacedAppend("Glowing ", "Scales, " + ("Golden " + "Hour"));
    SpacedAppend("Scales, ", "Golden " + "Hour");
    SpacedAppend("Golden ", "Hour");
    DragonPieces();
    DragonJoin();
  }

  /** A word of lower-case ASCII letters. */
  predicate LowerLetters(w: string)
  {
    forall i :: 0 <= i < |w| ==> 'a' <= w[i] <= 'z'
  }

  lemma LowerLettersNoSpace(w: string)
    requires LowerLetters(w)
    ensures NoSpace(w)
  {
    forall i | 0 <= i < |w| ensures !IsSpace(w[i]) {
      assert 'a' <= w[i] <= 'z';
    }
  }

  lemma DragonPartsLetters()
    ensures forall p :: p in DragonParts ==> LowerLetters(p)
  {
  }

  lemma DragonPartsClean()
    ensures forall p :: p in DragonParts ==> NoSpace(p)
  {
    DragonPartsLetters();
    forall p | p in DragonParts ensures NoSpace(p) {
      LowerLettersNoSpace(p);
    }
  }

  lemma DragonPartsWords()
    ensures NonEmpty(DragonParts) == DragonWordList
  {
  }

  lemma DragonWords()
    ensures Words(DragonPrompt) == DragonWordList
  {
    DragonSpaced();
    DragonPartsClean();
    DragonPartsWords();
    SplitJoinSpaces(DragonParts);
  }

  /** One more word adds itself to the candidates exactly when it qualifies. */
  lemma CandidatesSnoc(init: seq<string>, last: string)
    ensures Candidates(init + [last]) == Candidates(init) + (if Qualifies(last) then [last] else [])
  {
    assert (init + [last])[..|init|] == init;
  }

  lemma {:induction false} CandidatesAppend(a: seq<string>, b: seq<string>)
    ensures Candidates(a + b) == Candidates(a) + Candidates(b)
    decreases |b|
  {
    if b == [] {
      assert a + b == a;
    } else {
      var init, last := b[..|b| - 1], b[|b| - 1];
      assert a + b == (a + init) + [last];
      assert b == init + [last];
      CandidatesSnoc(a + init, last);
      CandidatesSnoc(init, last);
      CandidatesAppend(a, init);
    }
  }

  /** Words that all qualify are their own candidates. */
  lemma {:induction false} CandidatesAll(words: seq<string>)
    requires forall i :: 0 <= i < |words| ==> Qualifies(words[i])
    ensures Candidates(words) == words
    decreases |words|
  {
    if words != [] {
      var n := |words| - 1;
      var init, last := words[..n], words[n];
      assert words == init + [last];
      assert forall i :: 0 <= i < |init| ==> init[i] == words[i];
      CandidatesAll(init);
      assert Qualifies(last);
      CandidatesSnoc(init, last);
    }
  }

  /** A leading word that does not qualify leaves no candidate behind. */
  lemma CandidatesSkip(w: string, rest: seq<string>)
    requires !Qualifies(w)
    ensures Candidates([w] + rest) == Candidates(rest)
  {
    CandidatesAppend([w], rest);
    assert Candidates([w]) == [] by {
      assert [w][..0] == [];
    }
  }

  /** Deduplicating a list without repeats leaves it as it is. */
  lemma {:induction false} DedupeDistinct(s: seq<string>)
    requires NoDuplicates(s)
    ensures Dedupe(s) == s
    decreases |s|
  {
    if s != [] {
      var init := s[..|s| - 1];
      DedupeDistinct(init);
      assert s == init + [s[|s| - 1]];
      assert s[|s| - 1] !in init by {
        forall k | 0 <= k < |init| ensures init[k] != s[|s| - 1] {
          assert init[k] == s[k];
        }
      }
    }
  }

  lemma DragonCandidates()
    ensures Candidates(DragonWordList) == DragonTagList
  {
    assert ["a"] + DragonTagList == DragonWordList;
    CandidatesSkip("a", DragonTagList);
    DragonTagsQualify();
    CandidatesAll(DragonTagList);
  }

  lemma DragonTagsQualify()
    ensures forall i :: 0 <= i < |DragonTagList| ==> Qualifies(DragonTagList[i])
  {
    QualifiesByLength();
  }

  lemma DragonDistinct()
    ensures Dedupe(DragonTagList) == DragonTagList
  {
    DedupeDistinct(DragonTagList);
  }

  /**
   * The worked example: commas separate words, "a" is a stopword, and every
   * other word qualifies; as a set, the tags are exactly those six words.
   */
  lemma DragonTags()
    ensures forall t :: t in Tags(DragonPrompt) <==> t in DragonTagList
    ensures |Tags(DragonPrompt)| == |DragonTagList| == 6
  {
    DragonWords();
    DragonCandidates();
    DragonDistinct();
  }



  // ---------------------------------------------------------------------
  // The environment: what the services, the file system and uuid4 do

  /** A response field: missing, or present (an empty value stands for every falsy one). */
  datatype Field = Absent | Present(bytes: Blob)

  predicate FieldTruthy(f: Field)
  {
    f.Present? && f.bytes != []
  }

  /** A `stub.call`: it raised, or returned a response. */
  datatype Call<T> = Raised(message: string) | Returned(response: T)

  datatype ImageResponse = ImageResponse(result: Field)

  /** The image-to-3D response; `otherKeys` says whether it holds keys beyond the two read here. */
  datatype ModelResponse = ModelResponse(generatedObject: Field, videoObject: Field, otherKeys: bool)

  /** Python truthiness of the response dict. */
  predicate ResponseTruthy(r: ModelResponse)
  {
    r.generatedObject.Present? || r.videoObject.Present? || r.otherKeys
  }

  /** A `stub.schema` call or a file write: it completed, or raised. */
  datatype Effect = Done | Failed(message: string)

  datatype Env = Env(
    inDocker: bool,
    llmReply: LlmReply,
    picks: Picks,
    imageSchema: Effect,
    imageCall: Call<ImageResponse>,
    imageWrite: Effect,
    modelCall: Call<ModelResponse>,
    modelWrite: Effect,
    videoWrite: Effect,
    fallbackCall: Call<ModelResponse>,
    fallbackWrite: Effect,
    imageToken: string,
    modelToken: string,
    fallbackToken: string,
    storeUp: bool,
    now: nat)

  /** What the pipeline is constructed with. */
  datatype Setup = Setup(textToImageAppId: string, imageTo3dAppId: string, outputDir: string)

  /** `os.path.join(a, b)` on POSIX. */
  function JoinPath(a: string, b: string): (r: string)
    ensures b != [] ==> r != []
  {
    if b != [] && b[0] == '/' then b
    else if a == [] || a[|a| - 1] == '/' then a + b
    else a + "/" + b
  }

  function ArtifactPath(outputDir: string, kind: string, file: string): (r: string)
    ensures file != [] ==> r != []
  {
    JoinPath(JoinPath(outputDir, kind), file)
  }

  // ---------------------------------------------------------------------
  // The stages

  datatype Image = Image(data: Blob, path: string)

  /** `_generate_image`: image bytes and their file, or None when anything raised. */
  function GenerateImage(setup: Setup, env: Env): (r: Option<Image>)
    ensures r.Some? <==> && env.imageSchema.Done? && env.imageCall.Returned?
                         && FieldTruthy(env.imageCall.response.result) && env.imageWrite.Done?
    ensures r.Some? ==> && r.value.data == env.imageCall.response.result.bytes && r.value.data != []
                        && r.value.path == ArtifactPath(setup.outputDir, "images", env.imageToken + ".png")
                        && r.value.path != []
  {
    if env.imageSchema.Failed? || env.imageCall.Raised? then None
    else
      var data := env.imageCall.response.result;
      if !FieldTruthy(data) then None
      else if env.imageWrite.Failed? then None
      else Some(Image(data.bytes, ArtifactPath(setup.outputDir, "images", env.imageToken + ".png")))
  }

  datatype Model = Model(data: Blob, modelPath: string, videoPath: Option<string>)

  /**
   * `_generate_3d_model`: raises (None here) on a failed call, an empty
   * response, missing model data, a failed write, a missing `video_object`
   * key (after the model file is written) or a failed video write.
   */
  function GenerateModel(setup: Setup, env: Env): (r: Option<Model>)
    ensures r.Some? ==> && env.modelCall.Returned? && env.modelWrite.Done?
                        && FieldTruthy(env.modelCall.response.generatedObject)
                        && env.modelCall.response.videoObject.Present?
    ensures env.modelCall.Returned? && env.modelCall.response.videoObject.Absent? ==> r.None?
    ensures r.Some? <==> && env.modelCall.Returned? && FieldTruthy(env.modelCall.response.generatedObject)
                         && env.modelWrite.Done? && env.modelCall.response.videoObject.Present?
                         && (FieldTruthy(env.modelCall.response.videoObject) ==> env.videoWrite.Done?)
    ensures r.Some? ==> r.value.data == env.modelCall.response.generatedObject.bytes
    ensures r.Some? ==> (r.value.videoPath.Some? <==> FieldTruthy(env.modelCall.response.videoObject))
    ensures r.Some? ==> r.value.modelPath == ArtifactPath(setup.outputDir, "models", env.modelToken + ".glb")
    ensures r.Some? && r.value.videoPath.Some? ==>
              (&& env.videoWrite.Done?
               && r.value.videoPath.value == ArtifactPath(setup.outputDir, "videos", env.modelToken + ".mp4")
               && r.value.videoPath.value != [])
  {
    match env.modelCall
    case Raised(_) => None
    case Returned(response) =>
      if !ResponseTruthy(response) || !FieldTruthy(response.generatedObject) then None
      else if env.modelWrite.Failed? then None
      else
        var modelPath := ArtifactPath(setup.outputDir, "models", env.modelToken + ".glb");
        match response.videoObject
        case Absent => None
        case Present(video) =>
          if video == [] then Some(Model(response.generatedObject.bytes, modelPath, None))
          else if env.videoWrite.Failed? then None
          else Some(Model(response.generatedObject.bytes, modelPath,
                          Some(ArtifactPath(setup.outputDir, "videos", env.modelToken + ".mp4"))))
  }

  /** `_generate_3d_model2`: the `generated_object` value, or None; it never raises. */
  function GenerateModelFallback(env: Env): (r: Option<Blob>)
    ensures r.Some? ==> env.fallbackCall.Returned? && env.fallbackCall.response.generatedObject == Present(r.value)
    ensures (r.Some? && r.value != []) <==> env.fallbackCall.Returned? && FieldTruthy(env.fallbackCall.response.generatedObject)
  {
    match env.fallbackCall
    case Raised(_) => None
    case Returned(response) =>
      if !ResponseTruthy(response) then None
      else match response.generatedObject
        case Absent => None
        case Present(data) => Some(data)
  }

  /** The enhancer `process` picks by the container check. */
  function Enhance(userPrompt: string, env: Env): Exchange
  {
    if env.inDocker then EnhancePrompt(userPrompt, env.llmReply, env.picks)
    else EnhancePromptLocal(userPrompt, env.llmReply, env.picks)
  }

  // ---------------------------------------------------------------------
  // What a run does

  /** The calls a run makes, in order. */
  datatype Step =
    | EnhanceCall(request: Request)
    | SchemaCall(appId: string)
    | ImageCall(appId: string, prompt: string, userId: string)
    | ModelCall(appId: string, image: Blob, userId: string)
    | FallbackModelCall(appId: string, image: Blob, userId: string)
    | SaveCreationCall(arguments: nat)

  /** The exceptions that reach the outer handler of `process`. */
  datatype Fault =
    | EnhanceFailed(cause: LlmFault)
    | FallbackWriteFailed(message: string)
    | VideoPathUnbound
    | SaveCreationArity

  /** `str(e)` for each fault, in the wording of CPython 3.11. */
  function Describe(f: Fault): string
  {
    match f
    case EnhanceFailed(cause) => FaultMessage(cause)
    case FallbackWriteFailed(m) => m
    case VideoPathUnbound => "cannot access local variable 'video_path' where it is not associated with a value"
    case SaveCreationArity => "MemoryManager.save_creation() takes from 5 to 7 positional arguments but 8 were given"
  }

  /** Stage 3 either raises out of `process`, or leaves a model path and a video path behind. */
  datatype ModelOutcome =
    | ModelAborted(fault: Fault, steps: seq<Step>)
    | ModelReady(steps: seq<Step>, modelPath: Option<string>, videoPath: Option<string>)

  /**
   * The 3D stage with an image: the primary call, and when it raises, the
   * fallback call and the write of its data inside the `except` handler.
   */
  function ModelPlan(setup: Setup, image: Image, userId: string, env: Env): ModelOutcome
  {
    var primary := [ModelCall(setup.imageTo3dAppId, image.data, userId)];
    var model := GenerateModel(setup, env);
    if model.Some? then ModelReady(primary, Some(model.value.modelPath), model.value.videoPath)
    else
      var steps := primary + [FallbackModelCall(setup.imageTo3dAppId, image.data, userId)];
      var data := GenerateModelFallback(env);
      if data.Some? && data.value != [] then
        if env.fallbackWrite.Failed? then ModelAborted(FallbackWriteFailed(env.fallbackWrite.message), steps)
        else ModelReady(steps, Some(ArtifactPath(setup.outputDir, "models", env.fallbackToken + ".glb")), None)
      else ModelReady(steps, None, None)
  }

  /** A run either aborts, or reaches `save_creation` with these values. */
  datatype Plan =
    | Aborted(fault: Fault, steps: seq<Step>)
    | Persist(steps: seq<Step>, enhanced: string, imagePath: Option<string>, modelPath: Option<string>, tags: seq<string>)

  /** The steps up to and including the image service call. */
  function ImageSteps(setup: Setup, request: Request, enhanced: string, userId: string, env: Env): seq<Step>
  {
    [EnhanceCall(request)] + [SchemaCall(setup.textToImageAppId)]
    + (if env.imageSchema.Done? then [ImageCall(setup.textToImageAppId, enhanced, userId)] else [])
  }

  /** Stages 2 to 4, once the enhancer returned `enhanced` for `request`. */
  function RunAfter(setup: Setup, request: Request, enhanced: string, userId: string, env: Env): Plan
  {
    var imageSteps := ImageSteps(setup, request, enhanced, userId, env);
    var image := GenerateImage(setup, env);
    if image.None? then
      Aborted(VideoPathUnbound, imageSteps)
    else
      match ModelPlan(setup, image.value, userId, env)
      case ModelAborted(fault, steps) => Aborted(fault, imageSteps + steps)
      case ModelReady(steps, modelPath, videoPath) =>
        if videoPath.Some? then
          Aborted(SaveCreationArity, imageSteps + steps + [SaveCreationCall(7)])
        else
          Persist(imageSteps + steps + [SaveCreationCall(6)], enhanced, Some(image.value.path), modelPath, Tags(enhanced))
  }

  /** The whole of `process` up to `save_creation`: the calls made, and how the run ends. */
  function PlanRun(setup: Setup, userPrompt: string, userId: string, env: Env): Plan
  {
    var exchange := Enhance(userPrompt, env);
    match exchange.outcome
    case Err(cause) => Aborted(EnhanceFailed(cause), [EnhanceCall(exchange.request)])
    case Ok(enhanced) => RunAfter(setup, exchange.request, enhanced, userId, env)
  }

  // ---------------------------------------------------------------------
  // Properties of a run

  /** How many steps of a given kind a run makes. */
  function Count(steps: seq<Step>, kind: Step -> bool): nat
  {
    if steps == [] then 0
    else Count(steps[..|steps| - 1], kind) + (if kind(steps[|steps| - 1]) then 1 else 0)
  }

  lemma {:induction false} CountAppend(a: seq<Step>, b: seq<Step>, kind: Step -> bool)
    ensures Count(a + b, kind) == Count(a, kind) + Count(b, kind)
    decreases |b|
  {
    if b == [] {
      assert a + b == a;
    } else {
      assert (a + b)[..|a + b| - 1] == a + b[..|b| - 1];
      CountAppend(a, b[..|b| - 1], kind);
    }
  }

  predicate IsModelCall(s: Step) { s.ModelCall? }
  predicate IsFallbackCall(s: Step) { s.FallbackModelCall? }
  predicate IsSaveCall(s: Step) { s.SaveCreationCall? }

  lemma CountOne(s: Step, kind: Step -> bool)
    ensures Count([s], kind) == if kind(s) then 1 else 0
  {
    assert [s][..0] == [];
  }

  /**
   * A failed image stage ends the run in the error shape: `video_path` was
   * never bound. No 3D call and no `save_creation` call is made.
   */
  lemma ImageFailureAborts(setup: Setup, userPrompt: string, userId: string, env: Env)
    requires Enhance(userPrompt, env).outcome.Ok?
    requires GenerateImage(setup, env).None?
    ensures PlanRun(setup, userPrompt, userId, env).Aborted?
    ensures PlanRun(setup, userPrompt, userId, env).fault == VideoPathUnbound
    ensures Count(PlanRun(setup, userPrompt, userId, env).steps, IsModelCall) == 0
    ensures Count(PlanRun(setup, userPrompt, userId, env).steps, IsFallbackCall) == 0
    ensures Count(PlanRun(setup, userPrompt, userId, env).steps, IsSaveCall) == 0
  {
    var x := Enhance(userPrompt, env);
    PrefixCounts(x.request, setup.textToImageAppId, env.imageSchema.Done?, x.outcome.value, userId);
  }

  /**
   * A run that reaches `save_creation` had an image, got no video from the
   * primary 3D call, and stores the tags of the enhanced prompt.
   */
  lemma PersistFacts(setup: Setup, userPrompt: string, userId: string, env: Env)
    requires PlanRun(setup, userPrompt, userId, env).Persist?
    ensures var p := PlanRun(setup, userPrompt, userId, env);
            && Enhance(userPrompt, env).outcome == Ok(p.enhanced)
            && GenerateImage(setup, env).Some?
            && p.imagePath == Some(GenerateImage(setup, env).value.path)
            && Truthy(p.imagePath)
            && (GenerateModel(setup, env).None? || GenerateModel(setup, env).value.videoPath.None?)
            && p.tags == Tags(p.enhanced)
            && p.steps[|p.steps| - 1] == SaveCreationCall(6)
  {
  }

  /**
   * After the primary 3D call fails, the fallback is called exactly once; the
   * run reaches `save_creation` unless writing the fallback model raised, and
   * it has a model path exactly when the fallback returned model data.
   */
  lemma FallbackOnce(setup: Setup, userPrompt: string, userId: string, env: Env)
    requires Enhance(userPrompt, env).outcome.Ok?
    requires GenerateImage(setup, env).Some?
    requires GenerateModel(setup, env).None?
    ensures var p := PlanRun(setup, userPrompt, userId, env);
            && Count(p.steps, IsModelCall) == 1
            && Count(p.steps, IsFallbackCall) == 1
            && (p.Aborted? <==> FieldTruthyFallback(env) && env.fallbackWrite.Failed?)
            && (p.Persist? ==> (p.modelPath.Some? <==> FieldTruthyFallback(env)))
  {
    var x := Enhance(userPrompt, env);
    var image := GenerateImage(setup, env).value;
    var s1 := ImageSteps(setup, x.request, x.outcome.value, userId, env);
    var m := ModelCall(setup.imageTo3dAppId, image.data, userId);
    var f := FallbackModelCall(setup.imageTo3dAppId, image.data, userId);
    PrefixCounts(x.request, setup.textToImageAppId, env.imageSchema.Done?, x.outcome.value, userId);
    FallbackCounts(s1, m, f);
    assert s1 + ([m] + [f]) == s1 + [m] + [f];
  }

  /** One primary and one fallback call after a prefix with neither, whether or not the save follows. */
  lemma FallbackCounts(prefix: seq<Step>, m: Step, f: Step)
    requires Count(prefix, IsModelCall) == 0 && Count(prefix, IsFallbackCall) == 0
    requires m.ModelCall? && f.FallbackModelCall?
    ensures Count(prefix + [m] + [f], IsModelCall) == 1 && Count(prefix + [m] + [f], IsFallbackCall) == 1
    ensures Count(prefix + [m] + [f] + [SaveCreationCall(6)], IsModelCall) == 1
    ensures Count(prefix + [m] + [f] + [SaveCreationCall(6)], IsFallbackCall) == 1
  {
    CountSnoc(prefix, m, IsModelCall);
    CountSnoc(prefix + [m], f, IsModelCall);
    CountSnoc(prefix + [m] + [f], SaveCreationCall(6), IsModelCall);
    CountSnoc(prefix, m, IsFallbackCall);
    CountSnoc(prefix + [m], f, IsFallbackCall);
    CountSnoc(prefix + [m] + [f], SaveCreationCall(6), IsFallbackCall);
  }

  lemma CountSnoc(s: seq<Step>, x: Step, kind: Step -> bool)
    ensures Count(s + [x], kind) == Count(s, kind) + (if kind(x) then 1 else 0)
  {
    assert (s + [x])[..|s|] == s;
  }

  /** The fallback returned truthy model data. */
  predicate FieldTruthyFallback(env: Env)
  {
    env.fallbackCall.Returned? && FieldTruthy(env.fallbackCall.response.generatedObject)
  }

  /** The steps before the 3D stage make no 3D call and no save. */
  lemma PrefixCounts(request: Request, appId: string, schemaOk: bool, enhanced: string, userId: string)
    ensures var s := [EnhanceCall(request)] + [SchemaCall(appId)] + (if schemaOk then [ImageCall(appId, enhanced, userId)] else []);
            Count(s, IsModelCall) == 0 && Count(s, IsFallbackCall) == 0 && Count(s, IsSaveCall) == 0
  {
    var e, sc, c := EnhanceCall(request), SchemaCall(appId), ImageCall(appId, enhanced, userId);
    var a := [e] + [sc];
    PrefixKind(e, sc, c, IsModelCall);
    PrefixKind(e, sc, c, IsFallbackCall);
    PrefixKind(e, sc, c, IsSaveCall);
    if !schemaOk {
      assert a + [] == a;
    }
  }

  lemma PrefixKind(e: Step, sc: Step, c: Step, kind: Step -> bool)
    requires !kind(e) && !kind(sc) && !kind(c)
    ensures Count([e] + [sc], kind) == 0 && Count([e] + [sc] + [c], kind) == 0
  {
    CountOne(e, kind);
    CountSnoc([e], sc, kind);
    CountSnoc([e] + [sc], c, kind);
  }

  /**
   * A primary 3D call that returns a truthy video sends the run to the
   * seven-argument `save_creation` call, which raises: the error shape, and
   * no fallback call.
   */
  lemma VideoAborts(setup: Setup, userPrompt: string, userId: string, env: Env)
    requires Enhance(userPrompt, env).outcome.Ok?
    requires GenerateImage(setup, env).Some?
    requires GenerateModel(setup, env).Some? && GenerateModel(setup, env).value.videoPath.Some?
    ensures var p := PlanRun(setup, userPrompt, userId, env);
            && p == Aborted(SaveCreationArity, p.steps)
            && p.steps[|p.steps| - 1] == SaveCreationCall(7)
            && Count(p.steps, IsFallbackCall) == 0
  {
    var x := Enhance(userPrompt, env);
    var image := GenerateImage(setup, env).value;
    var s1 := [EnhanceCall(x.request)] + [SchemaCall(setup.textToImageAppId)]
              + (if env.imageSchema.Done? then [ImageCall(setup.textToImageAppId, x.outcome.value, userId)] else []);
    var m := ModelCall(setup.imageTo3dAppId, image.data, userId);
    PrefixCounts(x.request, setup.textToImageAppId, env.imageSchema.Done?, x.outcome.value, userId);
    CountAppend(s1, [m], IsFallbackCall);
    CountOne(m, IsFallbackCall);
    CountAppend(s1 + [m], [SaveCreationCall(7)], IsFallbackCall);
    CountOne(SaveCreationCall(7), IsFallbackCall);
  }

  /**
   * A primary 3D call that succeeds makes no fallback call; without a video
   * the run reaches the six-argument save with the primary model's path.
   */
  lemma PrimaryNoFallback(setup: Setup, userPrompt: string, userId: string, env: Env)
    requires Enhance(userPrompt, env).outcome.Ok?
    requires GenerateImage(setup, env).Some?
    requires GenerateModel(setup, env).Some?
    ensures var p := PlanRun(setup, userPrompt, userId, env);
            && Count(p.steps, IsModelCall) == 1
            && Count(p.steps, IsFallbackCall) == 0
            && (GenerateModel(setup, env).value.videoPath.None? ==>
                  p.Persist? && p.modelPath == Some(GenerateModel(setup, env).value.modelPath))
  {
    var x := Enhance(userPrompt, env);
    var image := GenerateImage(setup, env).value;
    var s1 := ImageSteps(setup, x.request, x.outcome.value, userId, env);
    var m := ModelCall(setup.imageTo3dAppId, image.data, userId);
    PrefixCounts(x.request, setup.textToImageAppId, env.imageSchema.Done?, x.outcome.value, userId);
    PrimaryCounts(s1, m, SaveCreationCall(6));
    PrimaryCounts(s1, m, SaveCreationCall(7));
  }

  /** One primary call and a save after a prefix with no 3D call. */
  lemma PrimaryCounts(prefix: seq<Step>, m: Step, save: Step)
    requires Count(prefix, IsModelCall) == 0 && Count(prefix, IsFallbackCall) == 0
    requires m.ModelCall? && save.SaveCreationCall?
    ensures Count(prefix + [m] + [save], IsModelCall) == 1 && Count(prefix + [m] + [save], IsFallbackCall) == 0
  {
    CountSnoc(prefix, m, IsModelCall);
    CountSnoc(prefix + [m], save, IsModelCall);
    CountSnoc(prefix, m, IsFallbackCall);
    CountSnoc(prefix + [m], save, IsFallbackCall);
  }

  /** A run whose enhancer raised ends in the error shape after that one call. */
  lemma EnhanceFailureAborts(setup: Setup, userPrompt: string, userId: string, env: Env)
    requires Enhance(userPrompt, env).outcome.Err?
    ensures PlanRun(setup, userPrompt, userId, env) == Aborted(EnhanceFailed(Enhance(userPrompt, env).outcome.error),
                                                               [EnhanceCall(Enhance(userPrompt, env).request)])
    ensures env.llmReply.PostRaised? || env.llmReply.status == 200
  {
  }

  // ---------------------------------------------------------------------
  // The pipeline object

  /** What `process` returns: the success record or the error record. */
  datatype PipelineResult =
    | Success(creationId: int, originalPrompt: string, enhancedPrompt: string,
              imagePath: Option<string>, modelPath: Option<string>, tags: seq<string>)
    | Failure(error: string, stage: string, originalPrompt: string)

  const ProcessStage: string := "pipeline_process"

  // ---------------------------------------------------------------------
  // What a run leaves behind

  /** The id `save_creation` returns: the next AUTOINCREMENT value, or -1 when the store fails. */
  function SavedId(before: Snapshot, env: Env): int
  {
    if env.storeUp then before.nextId else -1
  }

  /** The memory manager after the six-argument `save_creation` call and the four session-cache writes. */
  function Saved(before: Snapshot, userPrompt: string, enhanced: string, imagePath: Option<string>,
                 modelPath: Option<string>, tags: seq<string>, userId: string, env: Env): Snapshot
  {
    Snapshot(
      before.shortTerm["last_prompt" := Some(userPrompt)]["last_enhanced_prompt" := Some(enhanced)]
                      ["last_image_path" := imagePath]["last_model_path" := modelPath],
      before.rows + (if env.storeUp
                     then [CreationRecord(before.nextId, env.now, userPrompt, enhanced, imagePath, modelPath,
                                          None, TagsColumn(Some(tags)), userId)]
                     else []),
      if env.storeUp then before.nextId + 1 else before.nextId,
      if env.storeUp then env.now else before.clock)
  }

  /** The record `process` returns for a plan: the error record of its fault, or the success record. */
  function RunResult(plan: Plan, userPrompt: string, before: Snapshot, env: Env): PipelineResult
  {
    match plan
    case Aborted(fault, _) => Failure(Describe(fault), ProcessStage, userPrompt)
    case Persist(_, enhanced, imagePath, modelPath, tags) =>
      Success(SavedId(before, env), userPrompt, enhanced, imagePath, modelPath, tags)
  }

  /** The memory manager after a run: untouched when it aborts, saved and cached when it persists. */
  function AfterRun(plan: Plan, before: Snapshot, userPrompt: string, userId: string, env: Env): Snapshot
  {
    match plan
    case Aborted(_, _) => before
    case Persist(_, enhanced, imagePath, modelPath, tags) =>
      Saved(before, userPrompt, enhanced, imagePath, modelPath, tags, userId, env)
  }

  /**
   * A run keeps the table invariant, and leaves the clock no later than its
   * own time, so a following run at the same or a later time may start.
   */
  lemma AfterRunValid(plan: Plan, before: Snapshot, userPrompt: string, userId: string, env: Env)
    requires TableInvariant(before.rows, before.nextId, before.clock) && env.now >= before.clock
    ensures var after := AfterRun(plan, before, userPrompt, userId, env);
            TableInvariant(after.rows, after.nextId, after.clock) && after.clock <= env.now
  {
    if plan.Persist? && env.storeUp {
      var row := CreationRecord(before.nextId, env.now, userPrompt, plan.enhanced, plan.imagePath, plan.modelPath,
                                None, TagsColumn(Some(plan.tags)), userId);
      OldestFirstSnoc(before.rows, row);
      var after := before.rows + [row];
      forall r | r in after ensures 1 <= r.id < before.nextId + 1 && r.creationDate <= env.now && r.videoPath == None {
        if r != row {
          assert r in before.rows;
        }
      }
    }
  }

  /**
   * Two runs in a row that both reach a working store get increasing ids, and
   * each id is the id of the row that run appended.
   */
  lemma RunIdsIncrease(p1: Plan, p2: Plan, before: Snapshot, u1: string, u2: string, userId: string, e1: Env, e2: Env)
    requires p1.Persist? && p2.Persist? && e1.storeUp && e2.storeUp
    ensures var mid := AfterRun(p1, before, u1, userId, e1);
            var after := AfterRun(p2, mid, u2, userId, e2);
            && RunResult(p1, u1, before, e1).creationId < RunResult(p2, u2, mid, e2).creationId
            && after.rows[|after.rows| - 2].id == RunResult(p1, u1, before, e1).creationId
            && after.rows[|after.rows| - 1].id == RunResult(p2, u2, mid, e2).creationId
  {
    var mid := AfterRun(p1, before, u1, userId, e1);
    var after := AfterRun(p2, mid, u2, userId, e2);
    assert after.rows[..|mid.rows|] == mid.rows;
  }

  /** `_extract_tags` as the source writes it: a loop collecting words, then the set and the slice. */
  method ExtractTags(prompt: string) returns (tags: seq<string>)
    ensures tags == Tags(prompt)
  {
    var words := Words(prompt);
    var found: seq<string> := [];
    for i := 0 to |words|
      invariant found == Candidates(words[..i])
    {
      assert words[..i + 1][..i] == words[..i];
      if |words[i]| > 3 && words[i] !in Stopwords {
        found := found + [words[i]];
      }
    }
    assert words[..|words|] == words;
    var distinct := Dedupe(found);
    tags := if |distinct| <= MaxTags then distinct else distinct[..MaxTags];
  }

  class CreativePipeline {
    const memory: MemoryManager
    const textToImageAppId: string
    const imageTo3dAppId: string
    const outputDir: string

    /** The output directories are created beforehand by the caller. */
    constructor (memory: MemoryManager, textToImageAppId: string, imageTo3dAppId: string,
                 outputDir: string := "static/outputs")
      ensures this.memory == memory && this.textToImageAppId == textToImageAppId
      ensures this.imageTo3dAppId == imageTo3dAppId && this.outputDir == outputDir
    {
      this.memory := memory;
      this.textToImageAppId := textToImageAppId;
      this.imageTo3dAppId := imageTo3dAppId;
      this.outputDir := outputDir;
    }

    function Config(): Setup
    {
      Setup(textToImageAppId, imageTo3dAppId, outputDir)
    }

    /**
     * `process`: runs the stages, rebinding the image, model and video paths
     * as it goes; any exception that reaches the outer handler becomes the
     * error record, and only a run that gets past `save_creation` writes the
     * four session keys.
     */
    method Process(userPrompt: string, env: Env, userId: string := "super-user")
      returns (result: PipelineResult, trace: seq<Step>)
      requires memory.Valid() && env.now >= memory.clock
      modifies memory
      ensures memory.Valid()
      ensures trace == PlanRun(Config(), userPrompt, userId, env).steps
      ensures result == RunResult(PlanRun(Config(), userPrompt, userId, env), userPrompt, old(memory.State()), env)
      ensures memory.State() == AfterRun(PlanRun(Config(), userPrompt, userId, env), old(memory.State()), userPrompt, userId, env)
    {
      // Step 1: enhance the prompt
      var exchange := if env.inDocker then EnhancePrompt(userPrompt, env.llmReply, env.picks)
                      else EnhancePromptLocal(userPrompt, env.llmReply, env.picks);
      if exchange.outcome.Err? {
        trace := [EnhanceCall(exchange.request)];
        return Failure(Describe(EnhanceFailed(exchange.outcome.error)), ProcessStage, userPrompt), trace;
      }
      result, trace := RunStages(userPrompt, exchange.request, exchange.outcome.value, env, userId);
    }

    /** Stages 2 to 4 of `process`, after the enhancer returned `enhanced`. */
    method RunStages(userPrompt: string, request: Request, enhanced: string, env: Env, userId: string)
      returns (result: PipelineResult, trace: seq<Step>)
      requires memory.Valid() && env.now >= memory.clock
      modifies memory
      ensures memory.Valid()
      ensures trace == RunAfter(Config(), request, enhanced, userId, env).steps
      ensures result == RunResult(RunAfter(Config(), request, enhanced, userId, env), userPrompt, old(memory.State()), env)
      ensures memory.State()
           == AfterRun(RunAfter(Config(), request, enhanced, userId, env), old(memory.State()), userPrompt, userId, env)
    {
      // Step 2: generate the image
      var imagePath: Option<string>;
      trace := [EnhanceCall(request)] + [SchemaCall(textToImageAppId)];
      if env.imageSchema.Done? {
        trace := trace + [ImageCall(textToImageAppId, enhanced, userId)];
      }
      var image := GenerateImage(Config(), env);
      if image.Some? {
        imagePath := Some(image.value.path);
      } else {
        imagePath := None;
      }

      // Step 3: the 3D model, only with an image; `video_path` is bound only here
      var modelPath: Option<string>;
      var videoBound := false;
      var videoPath: Option<string> := None;
      if Truthy(imagePath) {
        videoBound, videoPath := true, None;
        var stage := ModelStage(image.value, env, userId);
        trace := trace + stage.steps;
        if stage.ModelAborted? {
          return Failure(Describe(stage.fault), ProcessStage, userPrompt), trace;
        }
        modelPath, videoPath := stage.modelPath, stage.videoPath;
      } else {
        modelPath := None;
      }

      // Step 4: tags, then the persistence call chosen by `video_path`
      var tags := ExtractTags(enhanced);
      if !videoBound {
        return Failure(Describe(VideoPathUnbound), ProcessStage, userPrompt), trace;
      }
      if Truthy(videoPath) {
        trace := trace + [SaveCreationCall(7)];
        return Failure(Describe(SaveCreationArity), ProcessStage, userPrompt), trace;
      }
      trace := trace + [SaveCreationCall(6)];
      var creationId := SaveRun(userPrompt, enhanced, imagePath, modelPath, tags, userId, env);
      result := Success(creationId, userPrompt, enhanced, imagePath, modelPath, tags);
    }

    /**
     * The `try` around `_generate_3d_model` and its `except` handler, which
     * calls `_generate_3d_model2` and writes what it returns.
     */
    method ModelStage(image: Image, env: Env, userId: string) returns (outcome: ModelOutcome)
      ensures outcome == ModelPlan(Config(), image, userId, env)
    {
      var steps := [ModelCall(imageTo3dAppId, image.data, userId)];
      var model := GenerateModel(Config(), env);
      if model.Some? {
        return ModelReady(steps, Some(model.value.modelPath), model.value.videoPath);
      }
      steps := steps + [FallbackModelCall(imageTo3dAppId, image.data, userId)];
      var data := GenerateModelFallback(env);
      if data.Some? && data.value != [] {
        if env.fallbackWrite.Failed? {
          return ModelAborted(FallbackWriteFailed(env.fallbackWrite.message), steps);
        }
        return ModelReady(steps, Some(ArtifactPath(outputDir, "models", env.fallbackToken + ".glb")), None);
      }
      return ModelReady(steps, None, None);
    }

    /** Stage 4's `save_creation` call and the four session-cache writes that follow it. */
    method SaveRun(userPrompt: string, enhanced: string, imagePath: Option<string>, modelPath: Option<string>,
                   tags: seq<string>, userId: string, env: Env)
      returns (creationId: int)
      requires memory.Valid() && env.now >= memory.clock
      modifies memory
      ensures memory.Valid()
      ensures creationId == SavedId(old(memory.State()), env)
      ensures memory.State() == Saved(old(memory.State()), userPrompt, enhanced, imagePath, modelPath, tags, userId, env)
    {
      creationId := memory.SaveCreation(env.now, env.storeUp, userPrompt, enhanced, imagePath, modelPath,
                                        Some(tags), userId);
      memory.SaveToShortTerm("last_prompt", Some(userPrompt));
      memory.SaveToShortTerm("last_enhanced_prompt", Some(enhanced));
      memory.SaveToShortTerm("last_image_path", imagePath);
      memory.SaveToShortTerm("last_model_path", modelPath);
    }
  }
}

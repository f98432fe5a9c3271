/** The Express backend of the code lab (backend/index.js): the `/run`
    execution proxy in front of the Piston code-execution service and the
    `/tutor` hint proxy in front of an OpenAI-compatible chat service.
    The outbound calls themselves are not modelled: what the services
    answer, or the error their call throws, is an input. */
module Backend {
  import opened JsValues

  datatype Result<+T, +E> = Ok(value: T) | Err(error: E)

  /** What an awaited outbound call produced: a parsed answer, or the value
      it threw. */
  datatype Upstream<+T, +E> = Answered(data: T) | Threw(error: E)

  predicate StartsWith(s: string, p: string) {
    |p| <= |s| && s[..|p|] == p
  }

  predicate EndsWith(s: string, p: string) {
    |p| <= |s| && s[|s| - |p|..] == p
  }

  // =======================================================================
  // Language table (PISTON_LANG)
  // =======================================================================

  /** A Piston runtime: its language name and version. */
  datatype Runtime = Runtime(language: string, version: string)

  const PistonLang: map<string, Runtime> := map[
    "python" := Runtime("python", "3.10.0"),
    "java" := Runtime("java", "15.0.2"),
    "csharp" := Runtime("csharp", "6.12.0")
  ]

  /** The properties every object literal inherits from Object.prototype. */
  const ObjectPrototypeMembers: set<string> := {
    "constructor", "hasOwnProperty", "isPrototypeOf", "propertyIsEnumerable",
    "toLocaleString", "toString", "valueOf", "__proto__",
    "__defineGetter__", "__defineSetter__", "__lookupGetter__", "__lookupSetter__"
  }

  /** A key that is not a string converts to text that names no table entry. */
  lemma NonStringKeyMisses(language: JsVal)
    requires !language.Str?
    ensures ToStr(language) !in PistonLang && ToStr(language) !in ObjectPrototypeMembers
  {
    if language.Num? {
      var t := ToStr(language);
      assert t[0] == '-' || '0' <= t[0] <= '9';
    }
  }

  /** What `PISTON_LANG[language]` yields as written: an own entry, an
      inherited Object.prototype member (a function, or the prototype
      itself for "__proto__"), or `undefined`. */
  datatype PropertyRead = Own(runtime: Runtime) | Inherited(name: string) | Missing

  function LookupAsWritten(language: JsVal): (r: PropertyRead)
    ensures r.Own? <==> language.Str? && language.s in PistonLang
    ensures r.Inherited? <==> language.Str? && language.s in ObjectPrototypeMembers
  {
    if !language.Str? then NonStringKeyMisses(language); Missing
    else if language.s in PistonLang then Own(PistonLang[language.s])
    else if language.s in ObjectPrototypeMembers then Inherited(language.s)
    else Missing
  }

  /** `if (!spec)` rejects only `undefined`: an inherited member is truthy. */
  predicate PassesGuard(r: PropertyRead) {
    !r.Missing?
  }

  /** The lookup the handler is meant to perform: own table entries only. */
  function Lookup(language: JsVal): (r: Option<Runtime>)
    ensures r.Some? <==> language.Str? && language.s in PistonLang
    ensures r.Some? ==> r.value == PistonLang[language.s]
  {
    match LookupAsWritten(language)
    case Own(rt) => Some(rt)
    case _ => None
  }

  /** The table is closed: exactly three languages resolve, each to its
      fixed runtime and version. */
  lemma LookupExact(language: JsVal)
    ensures Lookup(language) == Some(Runtime("python", "3.10.0")) <==> language == Str("python")
    ensures Lookup(language) == Some(Runtime("java", "15.0.2")) <==> language == Str("java")
    ensures Lookup(language) == Some(Runtime("csharp", "6.12.0")) <==> language == Str("csharp")
    ensures Lookup(language).None? <==>
      language != Str("python") && language != Str("java") && language != Str("csharp")
  {
  }

  // =======================================================================
  // POST /run
  // =======================================================================

  /** The parsed JSON body of a `/run` request; an absent field is `Undefined`. */
  datatype RunRequest = RunRequest(language: JsVal, sourceCode: JsVal, stdin: JsVal)

  datatype SourceFile = SourceFile(name: string, content: JsVal)

  /** The body sent to Piston; JSON.stringify drops a field that is `Undefined`. */
  datatype PistonBody = PistonBody(language: JsVal, version: JsVal, files: seq<SourceFile>, stdin: JsVal)

  /** `data.run` of Piston's answer; an absent field is `Undefined`. */
  datatype RunObject = RunObject(stdout: JsVal, stderr: JsVal, code: JsVal)

  /** Piston's parsed answer: `None` when `data.run` is falsy. */
  datatype PistonReply = PistonReply(run: Option<RunObject>)

  /** The three answers of `/run`: status 400, 200 and 500. */
  datatype RunResponse =
    | Unsupported(error: string)
    | Executed(stdout: JsVal, stderr: JsVal, exitCode: JsVal)
    | ExecutionFailed(error: string, details: JsVal)

  function RunStatus(r: RunResponse): int {
    match r
    case Unsupported(_) => 400
    case Executed(_, _, _) => 200
    case ExecutionFailed(_, _) => 500
  }

  /** One `/run` call: the body sent to Piston, if any, and the answer. */
  datatype RunExchange = RunExchange(sent: Option<PistonBody>, response: RunResponse)

  const UnsupportedLanguage: string := "Lenguaje no soportado"

  /** The Piston body for a request, or the 400 answer when the language is
      not in the table. */
  function PrepareRun(req: RunRequest): (r: Result<PistonBody, RunResponse>)
    ensures r.Err? <==> Lookup(req.language).None?
    ensures r.Err? ==> r.error == Unsupported(UnsupportedLanguage)
    ensures r.Ok? ==>
      var rt := PistonLang[req.language.s];
      r.value.language == Str(rt.language) && r.value.version == Str(rt.version)
    ensures r.Ok? ==> |r.value.files| == 1 && r.value.files[0].name == "main"
    ensures r.Ok? ==> SourceCarried(req.sourceCode, r.value.files[0].content)
    ensures r.Ok? ==> SourceCarried(req.stdin, r.value.stdin)
  {
    match Lookup(req.language)
    case None => Err(Unsupported(UnsupportedLanguage))
    case Some(rt) =>
      Ok(PistonBody(Str(rt.language), Str(rt.version),
                    [SourceFile("main", Or(req.sourceCode, Str("")))],
                    Or(req.stdin, Str(""))))
  }

  /** `x || ""`: a string is carried verbatim (the empty one included), a
      falsy value becomes `""`, and the result is never null or undefined. */
  predicate SourceCarried(given: JsVal, sent: JsVal) {
    !IsNullish(sent) &&
    (given.Str? ==> sent == given) &&
    (IsFalsy(given) ==> sent == Str("")) &&
    (!IsFalsy(given) ==> sent == given)
  }

  /** The `/run` answer built from Piston's reply, with `??` defaults. */
  function NormalizeRun(reply: PistonReply): (r: RunResponse)
    ensures r.Executed?
    ensures !IsNullish(r.stdout) && !IsNullish(r.stderr) && !IsNullish(r.exitCode)
    ensures reply.run.None? ==> r == Executed(Str(""), Str(""), Num(0))
    ensures reply.run.Some? ==>
      var run := reply.run.value;
      (IsNullish(run.stdout) ==> r.stdout == Str("")) &&
      (IsNullish(run.stderr) ==> r.stderr == Str("")) &&
      (IsNullish(run.code) ==> r.exitCode == Num(0)) &&
      (!IsNullish(run.stdout) ==> r.stdout == run.stdout) &&
      (!IsNullish(run.stderr) ==> r.stderr == run.stderr) &&
      (!IsNullish(run.code) ==> r.exitCode == run.code)
  {
    var run := match reply.run case Some(o) => o case None => RunObject(Undefined, Undefined, Undefined);
    Executed(Coalesce(run.stdout, Str("")), Coalesce(run.stderr, Str("")), Coalesce(run.code, Num(0)))
  }

  /** Present falsy values (`""`, `0`) pass through `??` unchanged: an
      empty run and a missing run give the same answer. */
  lemma NormalizeKeepsFalsyValues()
    ensures NormalizeRun(PistonReply(Some(RunObject(Str(""), Str(""), Num(0)))))
         == NormalizeRun(PistonReply(None))
    ensures NormalizeRun(PistonReply(Some(RunObject(Bool(false), Str(""), Num(0))))).stdout == Bool(false)
  {
  }

  /** The `/run` handler. An upstream error is any exception from the
      fetch or from parsing its body; it carries `err.message`. */
  function HandleRun(req: RunRequest, upstream: Upstream<PistonReply, JsVal>): (x: RunExchange)
    ensures x.sent.None? <==> Lookup(req.language).None?
    ensures x.sent.None? ==> x.response == Unsupported(UnsupportedLanguage)
    ensures x.sent.Some? ==> PrepareRun(req) == Ok(x.sent.value)
    ensures x.sent.Some? && upstream.Threw? ==>
      x.response == ExecutionFailed("Error ejecutando", upstream.error)
    ensures x.sent.Some? && upstream.Answered? ==> x.response == NormalizeRun(upstream.data)
  {
    match PrepareRun(req)
    case Err(answer) => RunExchange(None, answer)
    case Ok(body) =>
      match upstream
      case Threw(message) => RunExchange(Some(body), ExecutionFailed("Error ejecutando", message))
      case Answered(reply) => RunExchange(Some(body), NormalizeRun(reply))
  }

  /** The status of `/run` is decided by the table first and by the
      upstream call second. */
  lemma RunStatusCases(req: RunRequest, upstream: Upstream<PistonReply, JsVal>)
    ensures RunStatus(HandleRun(req, upstream).response) == 400 <==> Lookup(req.language).None?
    ensures RunStatus(HandleRun(req, upstream).response) == 500 <==>
      Lookup(req.language).Some? && upstream.Threw?
    ensures RunStatus(HandleRun(req, upstream).response) == 200 <==>
      Lookup(req.language).Some? && upstream.Answered?
  {
  }

  // -----------------------------------------------------------------------
  // The guard as written
  // -----------------------------------------------------------------------

  /** `PrepareRun` with the lookup as written: an inherited member passes
      the guard, and its `language` and `version` read as `undefined`. */
  function PrepareRunAsWritten(req: RunRequest): (r: Result<PistonBody, RunResponse>)
    ensures r.Err? <==> !PassesGuard(LookupAsWritten(req.language))
    ensures r.Ok? && LookupAsWritten(req.language).Inherited? ==>
      r.value.language == Undefined && r.value.version == Undefined
  {
    match LookupAsWritten(req.language)
    case Missing => Err(Unsupported(UnsupportedLanguage))
    case Own(rt) =>
      Ok(PistonBody(Str(rt.language), Str(rt.version),
                    [SourceFile("main", Or(req.sourceCode, Str("")))],
                    Or(req.stdin, Str(""))))
    case Inherited(_) =>
      Ok(PistonBody(Undefined, Undefined,
                    [SourceFile("main", Or(req.sourceCode, Str("")))],
                    Or(req.stdin, Str(""))))
  }

  /** The guard as written lets through every inherited member name, so
      `{language: "toString"}` reaches Piston without a language instead
      of being answered with 400. */
  lemma InheritedKeyPassesGuard(code: JsVal, stdin: JsVal)
    ensures PrepareRunAsWritten(RunRequest(Str("toString"), code, stdin)).Ok?
    ensures PrepareRunAsWritten(RunRequest(Str("toString"), code, stdin)).value.language == Undefined
    ensures PrepareRun(RunRequest(Str("toString"), code, stdin)) == Err(Unsupported(UnsupportedLanguage))
  {
  }

  /** The two lookups agree on every key except the inherited names. */
  lemma AsWrittenDiffersOnlyOnInherited(req: RunRequest)
    ensures !(req.language.Str? && req.language.s in ObjectPrototypeMembers) ==>
      PrepareRunAsWritten(req) == PrepareRun(req)
  {
  }

  // =======================================================================
  // Tutor prompt (buildTutorPrompt)
  // =======================================================================

  /** The parsed JSON body of a `/tutor` request. */
  datatype TutorRequest = TutorRequest(
    language: JsVal, sourceCode: JsVal, stdout: JsVal, stderr: JsVal, expectedOutput: JsVal)

  datatype ChatMessage = ChatMessage(role: string, content: string)

  const SystemPrompt: string :=
    "Eres un tutor de programación. Tu tarea es dar PISTAS pedagógicas y progresivas, " +
    "NO des la solución completa ni pegues el código final. " +
    "Sé claro, breve, y enfocado en que el alumno aprenda.\n\n" +
    "Reglas:\n" +
    "- No entregues el programa completo.\n" +
    "- Da máximo 4-6 pistas concretas.\n" +
    "- Si hay error de compilación/sintaxis, prioriza eso.\n" +
    "- Si el resultado es incorrecto, guía con verificaciones (entradas/salidas, tipos, bucles, condiciones).\n" +
    "- Incluye 1 pregunta al final para que el alumno reflexione.\n" +
    "- Usa español.\n" +
    "- Si es Java/C#, recuerda estructura mínima (clase Main/Program, método main/Main).\n"

  const ExerciseFlag: string := "Modo ejercicio: Sí\n"
  const ExpectedHeader: string := "Salida esperada:\n"
  const FreeTag: string := "Modo libre: Sí\n\n"
  const ClosingInstruction: string :=
    "Genera pistas para que el alumno corrija su código y/o se acerque al resultado esperado."

  /** The display name: Python, Java, and C# for anything else. */
  function LangName(language: JsVal): (name: string)
    ensures name == "Python" <==> language == Str("python")
    ensures name == "Java" <==> language == Str("java")
    ensures name == "C#" <==> language != Str("python") && language != Str("java")
  {
    if language == Str("python") then "Python"
    else if language == Str("java") then "Java"
    else "C#"
  }

  /** Exercise mode: the expected output is a string that is not all
      white space. */
  predicate HasExpected(expectedOutput: JsVal) {
    expectedOutput.Str? && |Trim(expectedOutput.s)| > 0
  }

  lemma HasExpectedIff(expectedOutput: JsVal)
    ensures HasExpected(expectedOutput) <==> expectedOutput.Str? && !AllSpace(expectedOutput.s)
  {
    if expectedOutput.Str? { TrimEmptyIff(expectedOutput.s); }
  }

  /** White space alone selects free mode; "8\n" selects exercise mode. */
  lemma ModeExamples()
    ensures !HasExpected(Str("   "))
    ensures !HasExpected(Str(""))
    ensures !HasExpected(Undefined)
    ensures HasExpected(Str("8\n"))
  {
    HasExpectedIff(Str("   "));
    HasExpectedIff(Str("8\n"));
    assert !IsJsSpace("8\n"[0]);
  }

  /** `${v || ""}` */
  function Interpolated(v: JsVal): (t: string)
    ensures v.Str? ==> t == v.s
    ensures IsFalsy(v) ==> t == ""
  {
    ToStr(Or(v, Str("")))
  }

  function LanguageLine(language: JsVal): string {
    "Lenguaje: " + LangName(language) + "\n"
  }

  /** The mode section: the expected output verbatim (untrimmed) in
      exercise mode. */
  function ModeSection(expectedOutput: JsVal): string {
    if HasExpected(expectedOutput) then ExerciseFlag + ExpectedHeader + expectedOutput.s + "\n\n"
    else FreeTag
  }

  function StdoutSection(stdout: JsVal): string {
    "Salida obtenida (stdout):\n" + Interpolated(stdout) + "\n\n"
  }

  function StderrSection(stderr: JsVal): string {
    "Errores (stderr):\n" + Interpolated(stderr) + "\n\n"
  }

  function CodeSection(sourceCode: JsVal): string {
    "Código del alumno:\n---\n" + Interpolated(sourceCode) + "\n---\n\n" + ClosingInstruction
  }

  /** stdout, stderr and the code, in that order, each under its header. */
  function ReportSections(req: TutorRequest): string {
    StdoutSection(req.stdout) + (StderrSection(req.stderr) + CodeSection(req.sourceCode))
  }

  function UserContent(req: TutorRequest): string {
    LanguageLine(req.language) + (ModeSection(req.expectedOutput) + ReportSections(req))
  }

  /** Exactly two messages: the fixed system instructions, then the user
      report. */
  function BuildTutorPrompt(req: TutorRequest): (msgs: seq<ChatMessage>)
    ensures |msgs| == 2
    ensures msgs[0] == ChatMessage("system", SystemPrompt)
    ensures msgs[1] == ChatMessage("user", UserContent(req))
  {
    [ChatMessage("system", SystemPrompt), ChatMessage("user", UserContent(req))]
  }

  /** The system message does not depend on the request. */
  lemma SystemMessageFixed(a: TutorRequest, b: TutorRequest)
    ensures BuildTutorPrompt(a)[0] == BuildTutorPrompt(b)[0]
  {
  }

  lemma PrefixOfConcat(a: string, b: string)
    ensures StartsWith(a + b, a) && (a + b)[|a|..] == b
  {
    assert (a + b)[..|a|] == a;
  }

  lemma SuffixOfConcat(a: string, b: string)
    ensures EndsWith(a + b, b)
  {
    assert (a + b)[|a + b| - |b|..] == b;
  }

  lemma StartsWithTrans(s: string, p: string, q: string)
    requires StartsWith(s, p) && StartsWith(p, q)
    ensures StartsWith(s, q)
  {
    assert s[..|q|] == s[..|p|][..|q|];
  }

  lemma EndsWithTrans(s: string, p: string, q: string)
    requires EndsWith(s, p) && EndsWith(p, q)
    ensures EndsWith(s, q)
  {
    assert s[|s| - |q|..] == s[|s| - |p|..][|p| - |q|..];
  }

  /** The user message opens with the language line; right after it comes
      "Modo ejercicio" exactly in exercise mode, followed by the expected
      output verbatim, and "Modo libre" otherwise. */
  lemma UserContentOpening(req: TutorRequest)
    ensures StartsWith(UserContent(req), "Lenguaje: " + LangName(req.language) + "\n")
    ensures var rest := UserContent(req)[|LanguageLine(req.language)|..];
      (StartsWith(rest, ExerciseFlag) <==> HasExpected(req.expectedOutput)) &&
      (StartsWith(rest, FreeTag) <==> !HasExpected(req.expectedOutput)) &&
      (HasExpected(req.expectedOutput) ==>
        StartsWith(rest, ExerciseFlag + ExpectedHeader + req.expectedOutput.s + "\n\n"))
  {
    var h := LanguageLine(req.language);
    var m := ModeSection(req.expectedOutput);
    var rest := m + ReportSections(req);
    PrefixOfConcat(h, rest);
    PrefixOfConcat(m, ReportSections(req));
    if HasExpected(req.expectedOutput) {
      var e := req.expectedOutput.s;
      PrefixOfConcat(ExerciseFlag + ExpectedHeader + e, "\n\n");
      PrefixOfConcat(ExerciseFlag + ExpectedHeader, e);
      PrefixOfConcat(ExerciseFlag, ExpectedHeader);
      StartsWithTrans(m, ExerciseFlag + ExpectedHeader + e, ExerciseFlag + ExpectedHeader);
      StartsWithTrans(m, ExerciseFlag + ExpectedHeader, ExerciseFlag);
      StartsWithTrans(rest, m, ExerciseFlag);
      assert rest[..|ExerciseFlag|][5] == 'e';
      assert FreeTag[5] == 'l';
    } else {
      assert rest[..|FreeTag|][5] == 'l';
      assert ExerciseFlag[5] == 'e';
    }
  }

  /** The user message closes with the student's code (or "") between its
      fences, then the fixed closing instruction. */
  lemma UserContentClosing(req: TutorRequest)
    ensures EndsWith(UserContent(req),
      "Código del alumno:\n---\n" + Interpolated(req.sourceCode) + "\n---\n\n" + ClosingInstruction)
  {
    var cs := CodeSection(req.sourceCode);
    var se := StderrSection(req.stderr) + cs;
    var rs := ReportSections(req);
    var mr := ModeSection(req.expectedOutput) + rs;
    SuffixOfConcat(StderrSection(req.stderr), cs);
    SuffixOfConcat(StdoutSection(req.stdout), se);
    SuffixOfConcat(ModeSection(req.expectedOutput), rs);
    SuffixOfConcat(LanguageLine(req.language), mr);
    EndsWithTrans(rs, se, cs);
    EndsWithTrans(mr, rs, cs);
    EndsWithTrans(UserContent(req), mr, cs);
  }

  /** Between the mode section and the code come stdout and then stderr,
      each under its header and each `""` when missing or falsy. */
  lemma UserContentReport(req: TutorRequest)
    ensures var k := |LanguageLine(req.language)| + |ModeSection(req.expectedOutput)|;
      k <= |UserContent(req)| &&
      StartsWith(UserContent(req)[k..],
        "Salida obtenida (stdout):\n" + Interpolated(req.stdout) + "\n\n" +
        "Errores (stderr):\n" + Interpolated(req.stderr) + "\n\n")
  {
    var so := StdoutSection(req.stdout);
    var se := StderrSection(req.stderr);
    MiddleOfConcat(LanguageLine(req.language), ModeSection(req.expectedOutput), so, se, CodeSection(req.sourceCode));
    var o := Interpolated(req.stdout);
    var e := Interpolated(req.stderr);
    assert so + se == "Salida obtenida (stdout):\n" + o + "\n\n" + "Errores (stderr):\n" + e + "\n\n";
  }

  /** In `h + (m + (a + (b + c)))`, what follows `h` and `m` starts with `a + b`. */
  lemma MiddleOfConcat(h: string, m: string, a: string, b: string, c: string)
    ensures var w := h + (m + (a + (b + c)));
      |h| + |m| <= |w| && StartsWith(w[|h| + |m|..], a + b)
  {
    var w := h + (m + (a + (b + c)));
    assert w[|h| + |m|..] == a + (b + c);
    assert (a + (b + c))[..|a + b|] == a + b;
  }

  // =======================================================================
  // POST /tutor
  // =======================================================================

  datatype AssistantMessage = AssistantMessage(content: Option<string>)
  datatype Choice = Choice(message: Option<AssistantMessage>)

  /** The chat service's parsed answer; a `None` anywhere is a null or
      absent property along `choices?.[0]?.message?.content`. */
  datatype Completion = Completion(choices: Option<seq<Option<Choice>>>)

  /** `completion.choices?.[0]?.message?.content` */
  function FirstContent(c: Completion): (r: Option<string>)
    ensures r.Some? <==>
      c.choices.Some? && |c.choices.value| > 0 && c.choices.value[0].Some? &&
      c.choices.value[0].value.message.Some? &&
      c.choices.value[0].value.message.value.content.Some?
    ensures r.Some? ==> r == c.choices.value[0].value.message.value.content
  {
    match c.choices
    case None => None
    case Some(cs) =>
      if |cs| == 0 then None
      else match cs[0]
        case None => None
        case Some(choice) =>
          match choice.message
          case None => None
          case Some(m) => m.content
  }

  const NoHint: string := "No pude generar una pista esta vez."

  lemma NoHintTrimmed()
    ensures Trim(NoHint) == NoHint
  {
    assert TrimmedAt(NoHint, NoHint, 0) by { assert NoHint[0..|NoHint|] == NoHint; }
    TrimUnique(NoHint, NoHint, 0);
  }

  /** The hint: the trimmed first choice, or the fallback when that is
      missing or blank. Either way it is non-empty and already trimmed. */
  function ExtractHint(c: Completion): (hint: string)
    ensures hint != ""
    ensures Trim(hint) == hint
    ensures (FirstContent(c).None? || AllSpace(FirstContent(c).value)) ==> hint == NoHint
    ensures FirstContent(c).Some? && !AllSpace(FirstContent(c).value) ==>
      hint == Trim(FirstContent(c).value)
  {
    NoHintTrimmed();
    match FirstContent(c)
    case None => NoHint
    case Some(s) =>
      TrimEmptyIff(s);
      TrimIdempotent(s);
      var t := Trim(s);
      if t != "" then t else NoHint
  }

  /** The value a `catch` receives: `null`/`undefined`, or an object with
      a `message` property. */
  datatype Thrown = ThrownNullish | ThrownError(message: JsVal)

  const ConfigHint: string :=
    "Falta GROQ_API_KEY en el backend. Crea D:\\code-lab\\backend\\.env con GROQ_API_KEY=... y reinicia el servidor."

  const FailurePrefix: string := "No pude generar pista por ahora.\nDetalle técnico: "

  /** `err?.message || "desconocido"` */
  function FailureDetail(e: Thrown): (detail: string)
    ensures e.ThrownError? && e.message.Str? && e.message.s != "" ==> detail == e.message.s
    ensures e.ThrownNullish? || IsFalsy(e.message) ==> detail == "desconocido"
  {
    match e
    case ThrownNullish => "desconocido"
    case ThrownError(m) => ToStr(Or(m, Str("desconocido")))
  }

  datatype ChatRequest = ChatRequest(model: string, messages: seq<ChatMessage>, temperature: real, maxTokens: nat)

  /** One `/tutor` call: the chat request sent, if any, the status and the hint. */
  datatype TutorExchange = TutorExchange(sent: Option<ChatRequest>, status: int, hint: string)

  predicate Configured(apiKey: Option<string>) {
    apiKey.Some? && apiKey.value != ""
  }

  /** The `/tutor` handler. `apiKey` is `process.env.GROQ_API_KEY`. */
  function HandleTutor(req: TutorRequest, apiKey: Option<string>, upstream: Upstream<Completion, Thrown>)
    : (x: TutorExchange)
    ensures !Configured(apiKey) ==> x == TutorExchange(None, 500, ConfigHint)
    ensures Configured(apiKey) ==>
      x.status == 200 &&
      x.sent == Some(ChatRequest("llama-3.3-70b-versatile", BuildTutorPrompt(req), 0.4, 350))
    ensures Configured(apiKey) && upstream.Answered? ==> x.hint == ExtractHint(upstream.data)
    ensures Configured(apiKey) && upstream.Threw? ==>
      x.hint == FailurePrefix + FailureDetail(upstream.error)
  {
    if !Configured(apiKey) then TutorExchange(None, 500, ConfigHint)
    else
      var sent := ChatRequest("llama-3.3-70b-versatile", BuildTutorPrompt(req), 0.4, 350);
      match upstream
      case Answered(completion) => TutorExchange(Some(sent), 200, ExtractHint(completion))
      case Threw(e) => TutorExchange(Some(sent), 200, FailurePrefix + FailureDetail(e))
  }

  /** Failures are masked: with a credential every call answers 200 with a
      non-empty hint, and a thrown message appears verbatim at its end. */
  lemma TutorMasksFailures(req: TutorRequest, apiKey: Option<string>, upstream: Upstream<Completion, Thrown>)
    ensures HandleTutor(req, apiKey, upstream).hint != ""
    ensures HandleTutor(req, apiKey, upstream).status == 200 <==> Configured(apiKey)
    ensures HandleTutor(req, apiKey, upstream).sent.Some? <==> Configured(apiKey)
    ensures Configured(apiKey) && upstream.Threw? && upstream.error.ThrownError? &&
            upstream.error.message.Str? && upstream.error.message.s != "" ==>
      EndsWith(HandleTutor(req, apiKey, upstream).hint, upstream.error.message.s)
  {
    var x := HandleTutor(req, apiKey, upstream);
    if Configured(apiKey) && upstream.Threw? && upstream.error.ThrownError? &&
       upstream.error.message.Str? && upstream.error.message.s != "" {
      var m := upstream.error.message.s;
      assert x.hint == FailurePrefix + m;
      assert (FailurePrefix + m)[|FailurePrefix + m| - |m|..] == m;
    }
  }
}

/** The editor page (frontend/src/App.jsx): its state, the handlers that
    update it, and the exercise verdict derived from it. Each handler's
    state updates are applied in program order; the `fetch` a handler
    awaits is not modelled, its outcome is an input. */
module Editor {
  import opened JsValues
  import Backend

  /** The starter code shown for each language of the selector. */
  const Templates: map<string, string> := map[
    "python" := "print(\"Hola desde Python\")\n",
    "java" :=
      "public class Main {\n" +
      "    public static void main(String[] args) {\n" +
      "        System.out.println(\"Hola desde Java\");\n" +
      "    }\n" +
      "}\n",
    "csharp" :=
      "using System;\n\n" +
      "public class Program {\n" +
      "    public static void Main(string[] args) {\n" +
      "        Console.WriteLine(\"Hola desde C#\");\n" +
      "    }\n" +
      "}\n"
  ]

  datatype Exercise = Exercise(
    id: string, title: string, language: string, description: string,
    starterCode: string, sampleInput: string, expectedOutput: string)

  const DemoExercise: Exercise := Exercise(
    "suma2",
    "Suma de dos números",
    "python",
    "Lee dos números enteros desde la entrada estándar y muestra la suma.",
    "a = int(input())\n" + "b = int(input())\n" + "suma = a + b\n" + "print(suma)\n",
    "5\n3\n",
    "8\n")

  // =======================================================================
  // Verdict and editor language
  // =======================================================================

  datatype Verdict = Verdict(text: string, color: string)

  const NoVerdict: Verdict := Verdict("", "#ccc")
  const CorrectColor: string := "#4ade80"
  const IncorrectColor: string := "#f87171"
  const CorrectText: string := "✅ Resultado correcto para el ejercicio."

  /** `exercise && expectedOutput && output` */
  predicate VerdictApplies(exercise: Option<Exercise>, expectedOutput: string, output: string) {
    exercise.Some? && expectedOutput != "" && output != ""
  }

  /** The verdict shown under the output: none unless an exercise is loaded
      and both outputs are non-empty; then correct exactly when the trimmed
      outputs agree, and otherwise a text quoting both trimmed outputs. */
  function VerdictOf(exercise: Option<Exercise>, expectedOutput: string, output: string): (v: Verdict)
    ensures v == NoVerdict <==> !VerdictApplies(exercise, expectedOutput, output)
    ensures v.color == CorrectColor <==>
      VerdictApplies(exercise, expectedOutput, output) && Trim(output) == Trim(expectedOutput)
    ensures v.color == IncorrectColor <==>
      VerdictApplies(exercise, expectedOutput, output) && Trim(output) != Trim(expectedOutput)
    ensures v.color == CorrectColor ==> v.text == CorrectText
    ensures v.color == IncorrectColor ==>
      v.text == "❌ Resultado incorrecto.\n" + "Esperado: " + Trim(expectedOutput) + "\n" +
                "Obtenido: " + Trim(output)
  {
    if VerdictApplies(exercise, expectedOutput, output) then
      var normOut := Trim(output);
      var normExp := Trim(expectedOutput);
      if normOut == normExp then Verdict(CorrectText, CorrectColor)
      else Verdict("❌ Resultado incorrecto.\n" + "Esperado: " + normExp + "\n" + "Obtenido: " + normOut,
                   IncorrectColor)
    else NoVerdict
  }

  /** White space around a non-empty output never changes the verdict. */
  lemma VerdictIgnoresPadding(exercise: Option<Exercise>, expectedOutput: string, output: string, p: string, q: string)
    requires AllSpace(p) && AllSpace(q) && output != ""
    ensures VerdictOf(exercise, expectedOutput, p + output + q) == VerdictOf(exercise, expectedOutput, output)
  {
    TrimIgnoresPadding(p, output, q);
  }

  /** For the demo exercise the verdict is correct exactly when the output
      trims to "8". */
  lemma DemoVerdict(output: string)
    ensures VerdictOf(Some(DemoExercise), DemoExercise.expectedOutput, output).color == CorrectColor
        <==> output != "" && Trim(output) == "8"
  {
    DemoExpectedTrim();
  }

  lemma DemoExpectedTrim()
    ensures Trim(DemoExercise.expectedOutput) == "8"
  {
    assert TrimmedAt("8\n", "8", 0) by {
      assert "8\n"[0..1] == "8";
    }
    TrimUnique("8\n", "8", 0);
  }

  /** The Monaco language id: `lang === "csharp" ? "csharp" : lang`. */
  function MonacoLanguage(lang: string): (id: string)
    ensures id == lang
  {
    if lang == "csharp" then "csharp" else lang
  }

  // =======================================================================
  // Requests and replies
  // =======================================================================

  /** What an awaited `fetch` plus `response.json()` produced: the parsed
      body, or the message of the error it threw. */
  datatype Fetch<+T> = Replied(data: T) | Failed(message: string)

  /** The fields of a `/run` reply the page reads; `None` when absent. */
  datatype RunData = RunData(stdout: Option<string>, stderr: Option<string>)

  /** The field of a `/tutor` reply the page reads. */
  datatype TutorData = TutorData(hint: Option<string>)

  /** The JSON body `runCode` posts to `/run`. */
  function RunRequestOf(lang: string, code: string, stdin: string): Backend.RunRequest {
    Backend.RunRequest(Str(lang), Str(code), Str(stdin))
  }

  /** The JSON body `askTutor` posts to `/tutor`. */
  function TutorRequestOf(lang: string, code: string, output: string, error: string, expectedOutput: string)
    : Backend.TutorRequest
  {
    Backend.TutorRequest(Str(lang), Str(code), Str(output), Str(error), Str(expectedOutput))
  }

  const RunningText: string := "Ejecutando...\n"
  const RunConnectionError: string := "❌ Error al conectar con el backend:\n"
  const AnalyzingText: string := "Analizando tu código..."
  const TutorFallback: string := "El tutor no pudo generar una pista ahora."
  const TutorConnectionError: string := "❌ Error al conectar con el tutor IA:\n"

  // =======================================================================
  // Page state
  // =======================================================================

  class App {
    var lang: string
    var code: string
    var output: string
    var error: string
    var isRunning: bool
    var stdin: string
    var exercise: Option<Exercise>
    var expectedOutput: string
    var tutorMessage: string
    var tutorLoading: bool

    /** The language is always one the selector offers. */
    ghost predicate Valid()
      reads this
    {
      lang in Templates
    }

    /** The initial state of the page. */
    constructor ()
      ensures Valid()
      ensures lang == "python" && code == Templates["python"]
      ensures output == "" && error == "" && stdin == "" && expectedOutput == "" && tutorMessage == ""
      ensures !isRunning && !tutorLoading && exercise == None
    {
      lang := "python";
      code := Templates["python"];
      output := "";
      error := "";
      isRunning := false;
      stdin := "";
      exercise := None;
      expectedOutput := "";
      tutorMessage := "";
      tutorLoading := false;
    }

    /** Load the demo exercise: its language, starter code, sample input
        and expected output, with the previous results cleared. */
    method LoadDemoExercise()
      modifies this
      ensures Valid()
      ensures lang == "python" && code == DemoExercise.starterCode
      ensures stdin == "5\n3\n" && expectedOutput == "8\n" && exercise == Some(DemoExercise)
      ensures output == "" && error == "" && tutorMessage == ""
      ensures isRunning == old(isRunning) && tutorLoading == old(tutorLoading)
    {
      lang := DemoExercise.language;
      code := DemoExercise.starterCode;
      stdin := DemoExercise.sampleInput;
      expectedOutput := DemoExercise.expectedOutput;
      exercise := Some(DemoExercise);
      output := "";
      error := "";
      tutorMessage := "";
    }

    /** Switch language: the template replaces the code and every result,
        the exercise, its expected output and the input are cleared. */
    method ChangeLanguage(newLang: string)
      requires newLang in Templates
      modifies this
      ensures Valid()
      ensures lang == newLang && code == Templates[newLang]
      ensures output == "" && error == "" && tutorMessage == ""
      ensures exercise == None && expectedOutput == "" && stdin == ""
      ensures isRunning == old(isRunning) && tutorLoading == old(tutorLoading)
    {
      lang := newLang;
      code := Templates[newLang];
      output := "";
      error := "";
      tutorMessage := "";
      exercise := None;
      expectedOutput := "";
      stdin := "";
    }

    /** The first part of `runCode`, before the request is awaited. */
    method StartRun()
      requires Valid()
      modifies this`isRunning, this`output, this`error, this`tutorMessage
      ensures Valid()
      ensures isRunning && output == RunningText && error == "" && tutorMessage == ""
    {
      isRunning := true;
      output := RunningText;
      error := "";
      tutorMessage := "";
    }

    /** The rest of `runCode`: show the reply (`|| ""`), or the connection
        error in the output; running ends either way. */
    method FinishRun(reply: Fetch<RunData>)
      requires Valid()
      modifies this`isRunning, this`output, this`error
      ensures Valid()
      ensures !isRunning
      ensures reply.Replied? ==>
        output == OrText(reply.data.stdout, "") && error == OrText(reply.data.stderr, "")
      ensures reply.Failed? ==> output == RunConnectionError + reply.message && error == ""
    {
      match reply {
        case Replied(data) =>
          output := OrText(data.stdout, "");
          error := OrText(data.stderr, "");
        case Failed(message) =>
          output := RunConnectionError + message;
          error := "";
      }
      isRunning := false;
    }

    /** `runCode`: returns the body posted to `/run`. */
    method RunCode(reply: Fetch<RunData>) returns (sent: Backend.RunRequest)
      requires Valid()
      modifies this`isRunning, this`output, this`error, this`tutorMessage
      ensures Valid()
      ensures sent == RunRequestOf(lang, code, stdin)
      ensures Backend.PrepareRun(sent).Ok?
      ensures !isRunning && tutorMessage == ""
      ensures reply.Replied? ==>
        output == OrText(reply.data.stdout, "") && error == OrText(reply.data.stderr, "")
      ensures reply.Failed? ==> output == RunConnectionError + reply.message && error == ""
    {
      StartRun();
      sent := RunRequestOf(lang, code, stdin);
      FinishRun(reply);
    }

    /** The first part of `askTutor`, before the request is awaited. */
    method StartTutor()
      requires Valid()
      modifies this`tutorLoading, this`tutorMessage
      ensures Valid()
      ensures tutorLoading && tutorMessage == AnalyzingText
    {
      tutorLoading := true;
      tutorMessage := AnalyzingText;
    }

    /** The rest of `askTutor`: show the hint (or the page's own fallback),
        or the connection error; loading ends either way. */
    method FinishTutor(reply: Fetch<TutorData>)
      requires Valid()
      modifies this`tutorLoading, this`tutorMessage
      ensures Valid()
      ensures !tutorLoading
      ensures reply.Replied? ==> tutorMessage == OrText(reply.data.hint, TutorFallback)
      ensures reply.Failed? ==> tutorMessage == TutorConnectionError + reply.message
    {
      match reply {
        case Replied(data) =>
          tutorMessage := OrText(data.hint, TutorFallback);
        case Failed(message) =>
          tutorMessage := TutorConnectionError + message;
      }
      tutorLoading := false;
    }

    /** `askTutor`: returns the body posted to `/tutor`, built from the
        state the handler sees. */
    method AskTutor(reply: Fetch<TutorData>) returns (sent: Backend.TutorRequest)
      requires Valid()
      modifies this`tutorLoading, this`tutorMessage
      ensures Valid()
      ensures sent == TutorRequestOf(lang, code, output, error, expectedOutput)
      ensures sent.language.Str? && sent.language.s in Templates
      ensures !tutorLoading
      ensures reply.Replied? ==> tutorMessage == OrText(reply.data.hint, TutorFallback)
      ensures reply.Failed? ==> tutorMessage == TutorConnectionError + reply.message
    {
      StartTutor();
      sent := TutorRequestOf(lang, code, output, error, expectedOutput);
      FinishTutor(reply);
    }
  }
}

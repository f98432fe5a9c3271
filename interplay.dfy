/** How the editor page and the backend fit together: the page posts the
    bodies built in `Editor`, the backend answers as `Backend` says, and
    the page reads the answer's fields back without looking at the status. */
module Interplay {
  import opened JsValues
  import Backend
  import Editor

  /** The languages of the selector are exactly the keys of the runtime
      table. */
  lemma SelectorMatchesTable(l: string)
    ensures l in Editor.Templates <==> Backend.Lookup(Str(l)).Some?
  {
  }

  /** A run posted from any editor state is never rejected: the language
      reaches Piston under its own name, with the code and the input as
      the one file and the stdin, verbatim. */
  lemma EditorRunAccepted(lang: string, code: string, stdin: string, upstream: Backend.Upstream<Backend.PistonReply, JsVal>)
    requires lang in Editor.Templates
    ensures var x := Backend.HandleRun(Editor.RunRequestOf(lang, code, stdin), upstream);
      x.sent.Some? && !x.response.Unsupported? &&
      x.sent.value.language == Str(lang) &&
      x.sent.value.files == [Backend.SourceFile("main", Str(code))] &&
      x.sent.value.stdin == Str(stdin)
  {
    var b := Backend.PrepareRun(Editor.RunRequestOf(lang, code, stdin));
    assert b.Ok?;
    assert b.value.files[0] == Backend.SourceFile("main", Str(code));
  }

  /** A field of a backend answer as the page holds it after `|| ""`:
      absent or falsy is `None`, anything else its text. */
  function TextField(v: JsVal): (r: Option<string>)
    ensures v.Str? && v.s != "" ==> r == Some(v.s)
    ensures IsFalsy(v) ==> r == None
  {
    if IsFalsy(v) then None else Some(ToStr(v))
  }

  /** The `/run` fields the page reads from an answer. An error answer
      (400 or 500) has neither `stdout` nor `stderr`. */
  function RunDataOf(r: Backend.RunResponse): Editor.RunData {
    match r
    case Executed(out, err, _) => Editor.RunData(TextField(out), TextField(err))
    case _ => Editor.RunData(None, None)
  }

  /** The output and error the page shows for a reply (`|| ""`). */
  function Shown(d: Editor.RunData): (string, string) {
    (OrText(d.stdout, ""), OrText(d.stderr, ""))
  }

  /** The page ignores the status: a 400 or 500 answer shows as an empty
      output and an empty error, like a program that printed nothing. */
  lemma ErrorAnswersShowBlank(r: Backend.RunResponse)
    requires !r.Executed?
    ensures Shown(RunDataOf(r)) == ("", "")
  {
  }

  /** What Piston printed is what the page shows, whether or not it is
      empty; a missing `run` shows as nothing. */
  lemma RunOutputEndToEnd(lang: string, source: string, stdin: string, out: string, err: string, code: JsVal)
    requires lang in Editor.Templates
    ensures
      var req := Editor.RunRequestOf(lang, source, stdin);
      var up := Backend.Answered(Backend.PistonReply(Some(Backend.RunObject(Str(out), Str(err), code))));
      Shown(RunDataOf(Backend.HandleRun(req, up).response)) == (out, err)
    ensures
      var req := Editor.RunRequestOf(lang, source, stdin);
      var up := Backend.Answered(Backend.PistonReply(None));
      Shown(RunDataOf(Backend.HandleRun(req, up).response)) == ("", "")
  {
    EditorRunAccepted(lang, source, stdin, Backend.Answered(Backend.PistonReply(Some(Backend.RunObject(Str(out), Str(err), code)))));
    EditorRunAccepted(lang, source, stdin, Backend.Answered(Backend.PistonReply(None)));
  }

  /** The page's own fallback never replaces a backend hint: every hint
      the backend sends is non-empty, so the page shows it as it is. */
  lemma TutorHintReachesPage(
    req: Backend.TutorRequest, apiKey: Option<string>, upstream: Backend.Upstream<Backend.Completion, Backend.Thrown>)
    ensures var hint := Backend.HandleTutor(req, apiKey, upstream).hint;
      OrText(Some(hint), Editor.TutorFallback) == hint
  {
    Backend.TutorMasksFailures(req, apiKey, upstream);
  }

  /** The tutor is asked in exercise mode exactly when the page holds a
      non-blank expected output: after loading the demo ("8\n") it is,
      after a language change ("") it is not. */
  lemma TutorModeFollowsPage(lang: string, code: string, output: string, error: string, expectedOutput: string)
    ensures Backend.HasExpected(Editor.TutorRequestOf(lang, code, output, error, expectedOutput).expectedOutput)
        <==> !AllSpace(expectedOutput)
    ensures Backend.HasExpected(Editor.TutorRequestOf(lang, code, output, error, Editor.DemoExercise.expectedOutput).expectedOutput)
    ensures !Backend.HasExpected(Editor.TutorRequestOf(lang, code, output, error, "").expectedOutput)
  {
    Backend.HasExpectedIff(Str(expectedOutput));
    Backend.ModeExamples();
  }

  /** A session on the demo exercise: load it, run it, and read an output
      of "8\n" back as a correct verdict. */
  method DemoSession() returns (verdict: Editor.Verdict)
    ensures verdict.color == Editor.CorrectColor
  {
    var app := new Editor.App();
    app.LoadDemoExercise();
    var sent := app.RunCode(Editor.Replied(Editor.RunData(Some("8\n"), Some(""))));
    Editor.DemoExpectedTrim();
    Editor.DemoVerdict(app.output);
    verdict := Editor.VerdictOf(app.exercise, app.expectedOutput, app.output);
  }
}

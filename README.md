# Code Lab IDE: request shaping, tutoring and editor state in Dafny

Code Lab is a browser sandbox for learning to program. A student writes
Python, Java or C# in an editor page. A small Express backend forwards the
code to the Piston execution service (`POST /run`) and asks a hosted
language model for pedagogical hints (`POST /tutor`). This project models
the logic that sits around those calls, and proves what it promises.

- `js_values.dfy`, module `JsValues`: JSON scalars as JavaScript sees
  them (`JsVal`). It defines the two defaulting operators `??`
  (`Coalesce`) and `||` (`Or`, `OrText`), string conversion in template
  literals for strings, booleans, null, undefined and integers below
  10^21 (`ToStr`), and `String.prototype.trim` over the ECMAScript
  white-space set (`Trim`). Trim is characterised as the unique slice with
  white space only around it, and proved idempotent and insensitive to
  padding.
- `backend.dfy`, module `Backend` (`backend/index.js`):
  - the closed `PISTON_LANG` table (`Lookup`);
  - the Piston body (`PrepareRun`);
  - the `??` normalisation of Piston's answer (`NormalizeRun`);
  - the `/run` handler (`HandleRun`);
  - the two-message tutor prompt (`BuildTutorPrompt`);
  - hint extraction (`ExtractHint`);
  - the `/tutor` handler with its credential check and failure masking
    (`HandleTutor`).

  What the Piston and chat services answer, or what their calls throw,
  is an input (`Upstream`). The credential is an input too.
- `editor.dfy`, module `Editor` (`frontend/src/App.jsx`): the page state is
  a class, `Editor.App`, with the ten state fields of the page. Its methods
  are the handlers `LoadDemoExercise` and `ChangeLanguage`, and `runCode`
  and `askTutor`, each split into a start phase and a finish phase. The
  finish phase takes the fetch outcome as an input. The verdict
  (`VerdictOf`) and the Monaco language id (`MonacoLanguage`) are pure
  functions of the state.
- `interplay.dfy`, module `Interplay`: lemmas on the page and the
  backend together. The selector's languages are exactly the table's
  keys, so a run posted from the page is never rejected. The page ignores
  the status, so an error answer shows as blank output. A backend hint is
  never replaced by the page's own fallback. The tutor mode follows the
  page's expected output.

When the credential is missing, `/tutor` answers with status 500
(`backend/index.js:114-119`). Every other `/tutor` failure is masked as a
200 answer. The model keeps that status as the code has it.

## Model

| member | source | states |
|---|---|---|
| JsValues.CoalesceAndOr | backend/index.js:41-58 | `??` replaces only null/undefined; `||` replaces every falsy value; the two differ exactly on `false`, `0` and `""` |
| JsValues.OrText | frontend/src/App.jsx:93-94 | `v || d` on an optional string: a non-empty string is kept, a missing or empty one becomes `d` |
| JsValues.DecimalRoundTrip | backend/index.js:102-104 | the plain decimal text that `ToStr` gives a non-negative integer (the form a template literal uses below 10^21) reads back as that integer |
| JsValues.ToStr | backend/index.js:100-104 | template interpolation of a string is the string itself |
| JsValues.TrimStart | backend/index.js:79 | removes exactly the longest leading run of ECMAScript white space |
| JsValues.TrimEnd | backend/index.js:79 | removes exactly the longest trailing run of ECMAScript white space |
| JsValues.Trim | backend/index.js:79 | the result is a slice of the input with only white space around it and no white space at its own ends |
| JsValues.TrimEmptyIff | backend/index.js:79 | the trim is empty iff the string is all white space |
| JsValues.TrimUnique | frontend/src/App.jsx:135-136 | any slice with only white space around it and none at its ends is the trim |
| JsValues.TrimIdempotent | backend/index.js:136 | trimming twice is trimming once |
| JsValues.TrimIgnoresPadding | frontend/src/App.jsx:135-138 | white space added on either side does not change the trim |
| Backend.LookupAsWritten | backend/index.js:23-33 | the property read as written: an own entry for the three table keys, an inherited member for the Object.prototype names, undefined otherwise |
| Backend.Lookup | backend/index.js:23-36 | a runtime is found iff the language is the string of a table key, and it is that key's entry |
| Backend.LookupExact | backend/index.js:23-36 | exactly python→(python, 3.10.0), java→(java, 15.0.2) and csharp→(csharp, 6.12.0) resolve; every other value, strings or not, is rejected |
| Backend.PrepareRun | backend/index.js:33-43 | unknown language gives the 400 "Lenguaje no soportado" answer and no body; otherwise the body has the resolved language/version, exactly one file named "main" whose content is the code verbatim (`""` for a falsy or absent code, never null), and `stdin || ""` |
| Backend.NormalizeRun | backend/index.js:54-59 | always a 200 answer with non-null fields; a missing `run`, or a null/absent field, gives `""`, `""`, `0`; every present value passes through unchanged |
| Backend.NormalizeKeepsFalsyValues | backend/index.js:56-58 | present `""`, `0` and `false` survive `??`, so an empty run answers like a missing one |
| Backend.HandleRun | backend/index.js:29-62 | no Piston request iff the language is unsupported (400); otherwise the body of PrepareRun is sent, a thrown error gives 500 "Error ejecutando" with its message, an answer gives the normalised result |
| Backend.RunStatusCases | backend/index.js:29-62 | status 400 iff unsupported; 500 iff supported and the call threw; 200 iff supported and answered |
| Backend.PrepareRunAsWritten | backend/index.js:33-43 | the guard as written rejects only missing properties; an inherited member yields a body whose language and version are undefined |
| Backend.InheritedKeyPassesGuard | backend/index.js:33-36 | `language: "toString"` passes the guard as written and is sent without a language, while the table lookup rejects it with 400 |
| Backend.AsWrittenDiffersOnlyOnInherited | backend/index.js:33-43 | the guard as written and the own-key lookup agree on every language except the inherited member names |
| Backend.LangName | backend/index.js:76-77 | Python iff "python", Java iff "java", C# for every other value |
| Backend.HasExpectedIff | backend/index.js:79 | exercise mode iff the expected output is a string that is not all white space |
| Backend.ModeExamples | backend/index.js:79 | `"   "`, `""` and a missing value select free mode; `"8\n"` selects exercise mode |
| Backend.Interpolated | backend/index.js:102-104 | `${v || ""}` is the string itself for a string and `""` for a falsy value |
| Backend.BuildTutorPrompt | backend/index.js:75-107 | exactly two messages: role "system" with the fixed instructions, then role "user" with the report |
| Backend.SystemMessageFixed | backend/index.js:81-96 | the system message is the same for every request |
| Backend.UserContentOpening | backend/index.js:100-101 | the user message starts with "Lenguaje: " and the display name; next comes "Modo ejercicio: Sí" iff exercise mode, followed by the untrimmed expected output, and "Modo libre: Sí" iff free mode |
| Backend.UserContentReport | backend/index.js:102-103 | after the language line and the mode section the user message continues with stdout and then stderr, each under its fixed header and each `""` when missing or falsy |
| Backend.UserContentClosing | backend/index.js:104-105 | the user message ends with the student's code, verbatim or `""`, between "---" fences, then the fixed closing instruction |
| Backend.FirstContent | backend/index.js:136 | a content is found exactly when `choices`, its first entry, that entry's `message` and the message's `content` are all present; it is then that content |
| Backend.NoHintTrimmed | backend/index.js:137 | the fallback hint is already trimmed |
| Backend.ExtractHint | backend/index.js:136-137 | the hint is the trimmed first choice, or "No pude generar una pista esta vez." when that is missing or blank; never empty, always trimmed |
| Backend.FailureDetail | backend/index.js:143 | a non-empty string message is quoted as is; a nullish thrown value or a falsy message gives "desconocido" |
| Backend.HandleTutor | backend/index.js:110-146 | without a credential: 500, the configuration hint, and no prompt or chat request; with one: status 200, one chat request (fixed model, the built prompt, temperature 0.4, 350 tokens), and the extracted hint or "No pude generar pista por ahora.\nDetalle técnico: " plus the detail |
| Backend.TutorMasksFailures | backend/index.js:114-144 | the hint is never empty; status 200 and a chat request iff the credential is set; a thrown message appears verbatim at the end of the hint |
| Editor.VerdictOf | frontend/src/App.jsx:131-148 | no verdict ("", #ccc) iff no exercise or an empty expected or actual output; otherwise #4ade80 iff the trimmed outputs agree, else #f87171 with a text quoting both trimmed outputs |
| Editor.VerdictIgnoresPadding | frontend/src/App.jsx:134-138 | white space around a non-empty output never changes the verdict |
| Editor.DemoExpectedTrim | frontend/src/App.jsx:35 | the demo's expected output "8\n" trims to "8" |
| Editor.DemoVerdict | frontend/src/App.jsx:134-140 | with the demo loaded, the verdict is correct iff the output is non-empty and trims to "8" |
| Editor.MonacoLanguage | frontend/src/App.jsx:151 | the editor language id always equals `lang` |
| Editor.App.constructor | frontend/src/App.jsx:39-48 | the initial state: python with its template, every text empty, no exercise, nothing loading |
| Editor.App.LoadDemoExercise | frontend/src/App.jsx:51-60 | lang python, the demo's starter code, input "5\n3\n", expected output "8\n" and the demo as exercise; output, error and tutor message cleared; loading flags unchanged |
| Editor.App.ChangeLanguage | frontend/src/App.jsx:63-72 | lang and its template; output, error, tutor message, expected output and input cleared; no exercise; loading flags unchanged |
| Editor.App.StartRun | frontend/src/App.jsx:76-79 | running, output "Ejecutando...\n", error and tutor message cleared; the language stays a selector option |
| Editor.App.FinishRun | frontend/src/App.jsx:92-100 | on a reply, output `stdout || ""` and error `stderr || ""`; on a failure, the connection-error prefix plus the message and an empty error; running ends either way |
| Editor.App.RunCode | frontend/src/App.jsx:75-101 | posts language, code and input from the state, a body the backend accepts (its language is in the runtime table), then ends in the FinishRun state with the tutor message cleared |
| Editor.App.StartTutor | frontend/src/App.jsx:105-106 | loading, message "Analizando tu código..."; the language stays a selector option |
| Editor.App.FinishTutor | frontend/src/App.jsx:121-127 | on a reply, `hint || "El tutor no pudo generar una pista ahora."`; on a failure, the error prefix plus the message; loading ends either way |
| Editor.App.AskTutor | frontend/src/App.jsx:104-128 | posts language, code, output, error and expected output from the state, with a selector language, then ends in the FinishTutor state |
| Interplay.SelectorMatchesTable | frontend/src/App.jsx:5-20 | a language has a template iff the backend table resolves it |
| Interplay.EditorRunAccepted | frontend/src/App.jsx:82-90 | a run from any selector language is sent to Piston under that name, with the code as the one "main" file and the input as stdin, verbatim |
| Interplay.TextField | frontend/src/App.jsx:93-94 | a non-empty string field is read as itself, a falsy one as absent |
| Interplay.ErrorAnswersShowBlank | frontend/src/App.jsx:92-94 | a 400 or 500 answer shows as an empty output and an empty error |
| Interplay.RunOutputEndToEnd | frontend/src/App.jsx:92-94 | the page shows exactly what Piston printed, empty strings included; a missing `run` shows as nothing |
| Interplay.TutorHintReachesPage | frontend/src/App.jsx:121-122 | the page's fallback never replaces a hint from the backend |
| Interplay.TutorModeFollowsPage | frontend/src/App.jsx:112-118 | the tutor is in exercise mode iff the page's expected output is not blank: yes after the demo, no after a language change |
| Interplay.DemoSession | frontend/src/App.jsx:51-101 | loading the demo and running it with output "8\n" gives a correct verdict |

## Findings

| source | as written | input that shows it | evidently intended | confidence | as-written member | corrected member |
|---|---|---|---|---|---|---|
| backend/index.js:33-36 | `PISTON_LANG[language]` also reads members that every object inherits from Object.prototype. Such a member is a function, or the prototype itself, so it is truthy and `!spec` lets it through | `{"language": "toString"}`; also "constructor", "valueOf", "__proto__" and the other inherited names. Piston is called with no language or version instead of the request getting a 400 | only the three own entries resolve; every other language is answered 400 "Lenguaje no soportado" | high; not executed | Backend.PrepareRunAsWritten (exhibited by Backend.InheritedKeyPassesGuard) | Backend.PrepareRun (with Backend.LookupExact), used by Backend.HandleRun |

## Left out

- Server plumbing is not modelled: Express setup, CORS, the 1 MB body limit, `app.listen`, the liveness route `GET /`, dotenv and the console logging.
- The outbound calls are not modelled: the Piston `fetch` and the Groq chat completion. What they return, or throw, is an input. The chat request records its model, temperature and token cap but is never sent.
- A Piston answer whose JSON body is `null` is not modelled on its own. `data.run` then throws, and that case is part of the thrown-upstream input.
- `/run` reads `err.message` in its catch. The model assumes the thrown value is an object, as fetch and JSON parsing always throw Error objects.
- JsValues.ToStr: every integer is written as plain decimal digits. JavaScript writes integers of 10^21 and above in exponent form (`${1e21}` is "1e+21"), and `JSON.parse` rounds integers beyond 2^53 to the nearest double; neither the exponent form nor that rounding is modelled, so numbers in the prompt sections, in a failure detail and as a table key are exact only for safe integers.
- Request fields are limited to JSON scalars (`JsVal`), with integer numbers only. Objects and arrays are left out, and so is their stringification in the prompt.
- Strings are sequences of Unicode scalar values, not UTF-16 code units. Every white-space character `trim` removes lies in the Basic Multilingual Plane, so trimming is the same either way.
- Backend.FirstContent: a content that is not a string is not modelled. On such a value `.trim()` would throw into the masked-failure path.
- Interplay.TextField: a truthy non-string reply field becomes its text. The page itself would keep the raw value.
- Editor.App.ChangeLanguage: it requires a language that has a template. The selector offers only python, java and csharp; any other value would set the code to undefined.
- Editing the code and the input (`setCode` from the editor, `setStdin` from the textarea) is not modelled. Those are plain assignments from UI events. `frontend/src/components/CodeEditor.jsx` (the Monaco wrapper, whose only logic is `val ?? ""`) is not part of this model.
- The page's `fetch` calls are left out. Their outcome is the `Fetch` input, and a failure of `response.json()` counts as a failed fetch. React rendering, layout, styles, and React's scheduling and batching of state updates are also left out. Each handler's updates are applied in program order.
- Not modelled: the quality of the hints the language model writes and the programs' actual results. Both are external behaviour.

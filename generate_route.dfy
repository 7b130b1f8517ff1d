/**
 * The code-generation endpoint `POST /api/generate`: it never calls a remote model,
 * it answers every non-blank prompt with one of four built-in components chosen by
 * keyword, wrapped in a stand-alone HTML preview page.
 */
module GenerateRoute {
  import opened Wrappers
  import opened Strings

  /** The four built-in components `getLocalDemo` can answer with. */
  datatype Template = TodoApp | Counter | Calculator | LandingPage

  /**
   * The component sources. Their JSX bodies are not modelled; each stands as a
   * distinct placeholder text, which is all the dispatch logic depends on.
   */
  function TemplateCode(t: Template): (code: string)
    ensures code != []
  {
    match t
    case TodoApp => "<todo list component>"
    case Counter => "<counter component>"
    case Calculator => "<calculator component>"
    case LandingPage => "<landing page component>"
  }

  /** The four components are told apart by their source: an answer's code names its component. */
  lemma TemplateCodeInjective(a: Template, b: Template)
    requires TemplateCode(a) == TemplateCode(b)
    ensures a == b
  {
  }

  /** The page text before the embedded component: loads React, ReactDOM and Babel. */
  const PreviewHead: string := "<!DOCTYPE html>\n<html lang=\"ka\">\n<head>\n    <meta charset=\"UTF-8\">\n    <meta name=\"viewport\" content=\"width=device-width, initial-scale=1.0\">\n    <title>Generated Component</title>\n    <script src=\"https://unpkg.com/react@18/umd/react.development.js\"></script>\n    <script src=\"https://unpkg.com/react-dom@18/umd/react-dom.development.js\"></script>\n    <script src=\"https://unpkg.com/@babel/standalone/babel.min.js\"></script>\n    <style>\n        body { \n            margin: 0; \n            padding: 0; \n            font-family: system-ui, -apple-system, sans-serif; \n        }\n        #root { \n            min-height: 100vh; \n            width: 100%;\n        }\n    </style>\n</head>\n<body>\n    <div id=\"root\"></div>\n    <script type=\"text/babel\">\n        const { useState, useEffect, useRef } = React;\n        \n        "

  /** The page text after the embedded component: mounts `MyComponent` into `#root`. */
  const PreviewTail: string := "\n        \n        const root = ReactDOM.createRoot(document.getElementById('root'));\n        root.render(<MyComponent />);\n    </script>\n</body>\n</html>"

  /** `generatePreviewHtml(code)`: the component source pasted verbatim into the page. */
  function PreviewHtml(code: string): (html: string)
    ensures StartsWith(html, PreviewHead) && EndsWith(html, PreviewTail)
    ensures |html| == |PreviewHead| + |code| + |PreviewTail|
  {
    PreviewHead + code + PreviewTail
  }

  /** Reads the component back out of a preview page: the text between the fixed head and tail. */
  function EmbeddedCode(html: string): Option<string> {
    if |PreviewHead| + |PreviewTail| <= |html| && StartsWith(html, PreviewHead) && EndsWith(html, PreviewTail)
    then Some(html[|PreviewHead|..|html| - |PreviewTail|])
    else None
  }

  /** Nothing is escaped: the embedded code comes back exactly. */
  lemma PreviewRoundTrip(code: string)
    ensures EmbeddedCode(PreviewHtml(code)) == Some(code)
  {
  }

  /** Every page `EmbeddedCode` accepts is the preview of what it extracts. */
  lemma EmbeddedCodeExact(html: string)
    ensures EmbeddedCode(html).Some? ==> PreviewHtml(EmbeddedCode(html).value) == html
  {
    if EmbeddedCode(html).Some? {
      var h, t := |PreviewHead|, |html| - |PreviewTail|;
      assert html == html[..h] + html[h..t] + html[t..];
    }
  }

  /** Two different components never share a preview page. */
  lemma PreviewInjective(a: string, b: string)
    requires PreviewHtml(a) == PreviewHtml(b)
    ensures a == b
  {
    PreviewRoundTrip(a);
    PreviewRoundTrip(b);
  }

  /** Each keyword group tests a word and a prefix of it, so the group is its shorter word. */
  lemma KeywordGroupsCollapse(p: string)
    ensures Occurs(p, "counter") || Occurs(p, "count") <==> Occurs(p, "count")
    ensures Occurs(p, "calculator") || Occurs(p, "calc") <==> Occurs(p, "calc")
  {
    if Occurs(p, "counter") {
      OccursInfix(p, "counter", 0, 5);
      assert "counter"[0..5] == "count";
    }
    if Occurs(p, "calculator") {
      OccursInfix(p, "calculator", 0, 4);
      assert "calculator"[0..4] == "calc";
    }
  }

  /**
   * The template `getLocalDemo` picks: the prompt is lower-cased once, then the
   * groups todo/task, counter/count, calculator/calc are tried in that order and the
   * first group with a hit wins; the landing page is the default.
   */
  function SelectTemplate(prompt: string): (t: Template)
    ensures var p := ToLower(prompt);
      && (t == TodoApp <==> Occurs(p, "todo") || Occurs(p, "task"))
      && (t == Counter <==> !Occurs(p, "todo") && !Occurs(p, "task") && Occurs(p, "count"))
      && (t == Calculator <==>
            !Occurs(p, "todo") && !Occurs(p, "task") && !Occurs(p, "count") && Occurs(p, "calc"))
      && (t == LandingPage <==>
            !Occurs(p, "todo") && !Occurs(p, "task") && !Occurs(p, "count") && !Occurs(p, "calc"))
  {
    var p := ToLower(prompt);
    KeywordGroupsCollapse(p);
    if Contains(p, "todo") || Contains(p, "task") then TodoApp
    else if Contains(p, "counter") || Contains(p, "count") then Counter
    else if Contains(p, "calculator") || Contains(p, "calc") then Calculator
    else LandingPage
  }

  /** Lower-casing keeps every occurrence in place. */
  lemma {:induction false} LowerKeepsOccurrence(s: string, k: string)
    requires Occurs(s, k)
    ensures Occurs(ToLower(s), ToLower(k))
  {
    var i :| OccursAt(s, k, i);
    assert ToLower(s)[i..i + |k|] == ToLower(k) by {
      forall m | 0 <= m < |k| ensures ToLower(s)[i..i + |k|][m] == ToLower(k)[m] {
        assert s[i..i + |k|][m] == k[m];
      }
    }
    assert OccursAt(ToLower(s), ToLower(k), i);
  }

  /** Matching ignores case: a keyword written in any mix of cases selects its template. */
  lemma AnyCaseSelects(prompt: string, k: string)
    requires Occurs(prompt, k)
    ensures ToLower(k) == "todo" || ToLower(k) == "task" ==> SelectTemplate(prompt) == TodoApp
    ensures ToLower(k) == "count" ==> SelectTemplate(prompt) in {TodoApp, Counter}
    ensures ToLower(k) == "calc" ==> SelectTemplate(prompt) in {TodoApp, Counter, Calculator}
  {
    LowerKeepsOccurrence(prompt, k);
  }

  /** Prompts that agree once lower-cased get the same template. */
  lemma SelectTemplateIgnoresCase(prompt: string)
    ensures SelectTemplate(ToLower(prompt)) == SelectTemplate(prompt)
  {
    ToLowerIdempotent(prompt);
  }

  datatype Demo = Demo(code: string, preview: string)

  /** `getLocalDemo(prompt)`: the selected component and its preview page. */
  function LocalDemo(prompt: string): (d: Demo)
    ensures d.code == TemplateCode(SelectTemplate(prompt))
    ensures EmbeddedCode(d.preview) == Some(d.code)
  {
    var code := TemplateCode(SelectTemplate(prompt));
    PreviewRoundTrip(code);
    Demo(code, PreviewHtml(code))
  }

  /** "landing page" mentions no keyword, so the final fallback is the landing page. */
  lemma LandingPagePromptIsDefault()
    ensures SelectTemplate("landing page") == LandingPage
  {
    var p := ToLower("landing page");
    assert p == "landing page";
    AbsentFirstChar(p, "todo");
    AbsentFirstChar(p, "task");
    AbsentFirstChar(p, "count");
    AbsentFirstChar(p, "calc");
  }

  /** The `prompt` field of the JSON body. */
  datatype PromptField =
    | Missing          // absent, `undefined` or `null`
    | Text(value: string)
    | NotText          // a number, boolean, array or object: it has no `trim`

  datatype GenerateRequest =
    | MalformedJson    // `request.json()` rejects the body, or the body is `null` and destructuring it throws
    | Json(prompt: PromptField)

  datatype GenerateResponse =
    | Generated(code: string, preview: string)   // 200, `success: true`
    | Rejected(status: nat, error: string)       // `success: false`

  const PromptRequired := "Prompt is required"

  /** The body of the catch block: `getLocalDemo("landing page")`. */
  function Fallback(): (r: GenerateResponse)
    ensures r.Generated? && r.code == TemplateCode(LandingPage)
  {
    LandingPagePromptIsDefault();
    var d := LocalDemo("landing page");
    Generated(d.code, d.preview)
  }

  /**
   * `POST /api/generate`. A missing or blank prompt is rejected with 400; any other
   * string is answered from `getLocalDemo`; anything that throws (a body that is not
   * JSON, a prompt without `trim`) ends in the catch block, which answers with the
   * landing page and still reports success.
   */
  function Post(req: GenerateRequest): (resp: GenerateResponse)
    ensures resp.Rejected? <==> req.Json? && (req.prompt.Missing? || (req.prompt.Text? && IsBlank(req.prompt.value)))
    ensures resp.Rejected? ==> resp.status == 400 && resp.error == PromptRequired
    ensures resp.Generated? ==> EmbeddedCode(resp.preview) == Some(resp.code)
    ensures req.Json? && req.prompt.Text? && !IsBlank(req.prompt.value) ==>
              resp.Generated? && resp.code == TemplateCode(SelectTemplate(req.prompt.value))
    ensures req.MalformedJson? || req.prompt.NotText? ==>
              resp.Generated? && resp.code == TemplateCode(LandingPage)
  {
    match req
    case MalformedJson => Fallback()
    case Json(Missing) => Rejected(400, PromptRequired)
    case Json(NotText) => Fallback()
    case Json(Text(p)) =>
      if Trim(p) == [] then Rejected(400, PromptRequired)
      else
        var d := LocalDemo(p);
        Generated(d.code, d.preview)
  }

  /** Whatever arrives, a generated answer is one of the four components. */
  lemma PostAnswersWithTemplate(req: GenerateRequest)
    ensures Post(req).Generated? ==> exists t :: Post(req).code == TemplateCode(t)
  {
  }
}

/**
  Code-block language resolution (`render_block_code`): Notion accepts only
  its own spelling of each language, so a fence's language is matched,
  ignoring case, as a prefix of the labels of a fixed table, and the first
  matching label wins.
*/
module Languages {

  /** The labels Notion expects, in the order they are searched. */
  const Labels: seq<string> := [
    "ABAP", "Arduino", "Bash", "BASIC", "C", "Clojure", "CoffeeScript", "C++",
    "C#", "CSS", "Dart", "Diff", "Docker", "Elixir", "Elm", "Erlang", "Flow",
    "Fortran", "F#", "Gherkin", "GLSL", "Go", "GraphQL", "Groovy", "Haskell",
    "HTML", "Java", "JavaScript", "JSON", "Kotlin", "LaTeX", "Less", "Lisp",
    "LiveScript", "Lua", "Makefile", "Markdown", "Markup", "MATLAB", "Nix",
    "Objective-C", "OCaml", "Pascal", "Perl", "PHP", "Plain Text", "PowerShell",
    "Prolog", "Python", "R", "Reason", "Ruby", "Rust", "Sass", "Scala", "Scheme",
    "Scss", "Shell", "SQL", "Swift", "TypeScript", "VB.Net", "Verilog", "VHDL",
    "Visual Basic", "WebAssembly", "XML", "YAML"
  ]

  /** The label used for a fence with no language. */
  const PlainText: string := "Plain Text"

  /** ASCII lower-casing; every other character is left alone. */
  function Lower(c: char): (r: char)
    ensures !('A' <= r <= 'Z')
    ensures 'A' <= c <= 'Z' ==> 'a' <= r <= 'z'
    ensures !('A' <= c <= 'Z') ==> r == c
  {
    if 'A' <= c <= 'Z' then (c as int + 32) as char else c
  }

  /** Lower-casing twice is lower-casing once. */
  lemma LowerIdempotent(c: char)
    ensures Lower(Lower(c)) == Lower(c)
  {
  }

  /** Two characters compare equal under `re.I` exactly when they are the
      same character or the same ASCII letter in the two cases. */
  lemma LowerEqual(c: char, d: char)
    ensures Lower(c) == Lower(d) <==>
      (|| c == d
       || ('A' <= c <= 'Z' && d as int == c as int + 32)
       || ('A' <= d <= 'Z' && c as int == d as int + 32))
  {
  }

  /** `re.match(re.escape(prefix), name, re.I)`: `name` starts with
      `prefix`, comparing characters without regard to ASCII case. */
  predicate StartsWithIgnoringCase(name: string, prefix: string) {
    |prefix| <= |name| && forall i :: 0 <= i < |prefix| ==> Lower(prefix[i]) == Lower(name[i])
  }

  /** The position of the first label at or after `from` that starts with
      `lang`, or `|labels|` when none does (the generator inside
      `next(..., "")`, consumed in order). */
  function FirstMatch(lang: string, labels: seq<string>, from: nat): (k: nat)
    requires from <= |labels|
    ensures from <= k <= |labels|
    ensures k < |labels| ==> StartsWithIgnoringCase(labels[k], lang)
    ensures forall j :: from <= j < k ==> !StartsWithIgnoringCase(labels[j], lang)
    decreases |labels| - from
  {
    if from == |labels| then from
    else if StartsWithIgnoringCase(labels[from], lang) then from
    else FirstMatch(lang, labels, from + 1)
  }

  /** The search stops at the first matching label. */
  lemma FirstMatchIsFirst(lang: string, labels: seq<string>, k: nat)
    requires k < |labels| && StartsWithIgnoringCase(labels[k], lang)
    requires forall j :: 0 <= j < k ==> !StartsWithIgnoringCase(labels[j], lang)
    ensures FirstMatch(lang, labels, 0) == k
  {
  }

  /** The language stored in a code block: "Plain Text" for a fence without
      a language, otherwise the first label the language is a prefix of,
      or "" when no label matches. */
  function ResolveLanguage(lang: string): (r: string)
    ensures lang == "" ==> r == PlainText
    ensures lang != "" ==>
      (r == "" <==> forall j :: 0 <= j < |Labels| ==> !StartsWithIgnoringCase(Labels[j], lang))
  {
    if lang != "" then
      var k := FirstMatch(lang, Labels, 0);
      if k < |Labels| then Labels[k] else ""
    else
      PlainText
  }

  /** When `Labels[k]` is the first label the language is a prefix of, the
      code block's language is `Labels[k]`. */
  lemma ResolveIsFirstMatch(lang: string, k: nat)
    requires lang != "" && k < |Labels| && StartsWithIgnoringCase(Labels[k], lang)
    requires forall j :: 0 <= j < k ==> !StartsWithIgnoringCase(Labels[j], lang)
    ensures ResolveLanguage(lang) == Labels[k]
  {
    FirstMatchIsFirst(lang, Labels, k);
  }

  /** Conversely, a non-empty resolved language is a label the language is
      a prefix of, and no earlier label is. */
  lemma ResolvedIsFirstMatch(lang: string)
    requires lang != "" && ResolveLanguage(lang) != ""
    ensures exists k :: (0 <= k < |Labels| && ResolveLanguage(lang) == Labels[k] &&
                         StartsWithIgnoringCase(Labels[k], lang) &&
                         forall j :: 0 <= j < k ==> !StartsWithIgnoringCase(Labels[j], lang))
  {
    var k := FirstMatch(lang, Labels, 0);
    assert ResolveLanguage(lang) == Labels[k];
  }

  /** The table holds 68 labels. */
  lemma LabelsCount()
    ensures |Labels| == 68
  {
  }

  /** Resolution ignores ASCII case: "PY", "Py" and "py" all resolve alike. */
  lemma {:induction false} FirstMatchIgnoresCase(a: string, b: string, labels: seq<string>, from: nat)
    requires from <= |labels|
    requires |a| == |b| && forall i :: 0 <= i < |a| ==> Lower(a[i]) == Lower(b[i])
    ensures FirstMatch(a, labels, from) == FirstMatch(b, labels, from)
    decreases |labels| - from
  {
    if from < |labels| {
      assert StartsWithIgnoringCase(labels[from], a) == StartsWithIgnoringCase(labels[from], b);
      FirstMatchIgnoresCase(a, b, labels, from + 1);
    }
  }

  /** The stored language depends on the fence's language only up to ASCII case. */
  lemma ResolveIgnoresCase(a: string, b: string)
    requires |a| == |b| && forall i :: 0 <= i < |a| ==> Lower(a[i]) == Lower(b[i])
    ensures ResolveLanguage(a) == ResolveLanguage(b)
  {
    FirstMatchIgnoresCase(a, b, Labels, 0);
  }
}

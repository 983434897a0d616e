/*
 * The Markdown renderer's `pre` blocks: the language named by the code
 * element's class, routing a non-empty "mermaid" block to the diagram
 * component and every other block to a code block with a Copy button, and
 * the diagram component's lazy loading of the diagram engine and its error
 * text. The Markdown parser, the highlighter and the engine's drawing are
 * not modelled.
 */
module MarkdownRenderer {
  import opened Js

  // ---------------------------------------------------------------------------
  // Language extraction: `className.match(/language-(\w+)/)?.[1]`

  const LanguageTag := "language-"

  /** `\w`: an ASCII letter, digit or underscore. */
  predicate IsWordChar(c: char) {
    ('a' <= c <= 'z') || ('A' <= c <= 'Z') || ('0' <= c <= '9') || c == '_'
  }

  /** The regular expression matches at `i`: the tag, then at least one word character. */
  predicate MatchesAt(s: string, i: int) {
    0 <= i && i + |LanguageTag| < |s| && s[i..i + |LanguageTag|] == LanguageTag && IsWordChar(s[i + |LanguageTag|])
  }

  /** The longest run of word characters `s` starts with: what the greedy `\w+` takes. */
  function WordRun(s: string): (r: string)
    ensures |r| <= |s| && r == s[..|r|]
    ensures forall k :: 0 <= k < |r| ==> IsWordChar(r[k])
    ensures |r| == |s| || !IsWordChar(s[|r|])
  {
    if s == [] || !IsWordChar(s[0]) then [] else [s[0]] + WordRun(s[1..])
  }

  /** The leftmost position at or after `from` where the expression matches. */
  function FirstMatch(s: string, from: nat): (r: Option<nat>)
    requires from <= |s|
    ensures r.Some? ==> from <= r.value && MatchesAt(s, r.value)
    ensures r.Some? ==> forall j :: from <= j < r.value ==> !MatchesAt(s, j)
    ensures r.None? ==> forall j :: from <= j < |s| ==> !MatchesAt(s, j)
    decreases |s| - from
  {
    if from == |s| then None
    else if MatchesAt(s, from) then Some(from)
    else FirstMatch(s, from + 1)
  }

  /** The captured group of the leftmost match, or None when nothing matches. */
  function ExtractLanguage(s: string): (r: Option<string>)
    ensures r.None? <==> forall j :: 0 <= j < |s| ==> !MatchesAt(s, j)
    ensures r.Some? ==> r.value != [] && forall k :: 0 <= k < |r.value| ==> IsWordChar(r.value[k])
  {
    match FirstMatch(s, 0)
    case Some(i) => Some(WordRun(s[i + |LanguageTag|..]))
    case None => None
  }

  /** The language is the whole word run after the leftmost tag that a word character follows. */
  lemma LanguageIsLeftmostMatch(s: string, i: nat)
    requires MatchesAt(s, i)
    requires forall j :: 0 <= j < i ==> !MatchesAt(s, j)
    ensures ExtractLanguage(s) == Some(WordRun(s[i + |LanguageTag|..]))
  {
    assert i < |s|;
  }

  /** A string of word characters is its own word run. */
  lemma {:induction false} WordRunOfWord(s: string)
    requires forall k :: 0 <= k < |s| ==> IsWordChar(s[k])
    ensures WordRun(s) == s
  {
    if s != [] {
      WordRunOfWord(s[1..]);
    }
  }

  /** `codeProps?.className?.match(...)?.[1]`: no class, no language. */
  function Language(className: Option<string>): Option<string> {
    if className.Some? then ExtractLanguage(className.value) else None
  }

  /** A class that is the tag followed by a word names exactly that word. */
  lemma TagThenWordNamesWord(w: string)
    requires w != [] && forall k :: 0 <= k < |w| ==> IsWordChar(w[k])
    ensures ExtractLanguage(LanguageTag + w) == Some(w)
  {
    var s := LanguageTag + w;
    assert s[..|LanguageTag|] == LanguageTag;
    assert s[|LanguageTag|] == w[0];
    assert MatchesAt(s, 0);
    LanguageIsLeftmostMatch(s, 0);
    assert s[|LanguageTag|..] == w;
    WordRunOfWord(w);
  }

  /** The class the Markdown parser gives a "mermaid" fence names the mermaid language. */
  lemma MermaidClassNamesMermaid()
    ensures Language(Some(LanguageTag + "mermaid")) == Some("mermaid")
  {
    TagThenWordNamesWord("mermaid");
  }

  // ---------------------------------------------------------------------------
  // Routing and copying

  /** What a `pre` block renders as: the diagram component, or a code block with or without its Copy button. */
  datatype Block = Diagram(source: string) | CodeBlock(copyButton: bool)

  /** The `pre` renderer, for a code element whose children are the string `code`. */
  function RenderPre(className: Option<string>, code: string): (r: Block)
    ensures r.Diagram? ==> r.source == code && code != ""
    ensures r.CodeBlock? ==> (r.copyButton <==> code != "")
  {
    if Language(className) == Some("mermaid") && code != "" then Diagram(code)
    else CodeBlock(code != "")
  }

  /** A block goes to the diagram component exactly when its language is "mermaid" and it has code. */
  lemma DiagramIffMermaidWithCode(className: Option<string>, code: string)
    ensures RenderPre(className, code).Diagram? <==> Language(className) == Some("mermaid") && code != ""
  {
  }

  /** A non-empty "mermaid" fence becomes a diagram of its code; an empty one is a code block without Copy. */
  lemma MermaidFenceRouting(code: string)
    ensures code != "" ==> RenderPre(Some(LanguageTag + "mermaid"), code) == Diagram(code)
    ensures code == "" ==> RenderPre(Some(LanguageTag + "mermaid"), code) == CodeBlock(false)
  {
    MermaidClassNamesMermaid();
  }

  /** What the Copy handler has done: the texts written to the clipboard and the `onCodeCopy` calls. */
  class CopyLog {
    var clipboardWrites: seq<string>
    var copyEvents: nat

    constructor ()
      ensures clipboardWrites == [] && copyEvents == 0
    {
      clipboardWrites := [];
      copyEvents := 0;
    }

    /** `handleCopy`: write the code and report once, only for non-empty code with a clipboard present. */
    method HandleCopy(code: string, hasClipboard: bool, hasCallback: bool)
      modifies this
      ensures code != "" && hasClipboard ==> clipboardWrites == old(clipboardWrites) + [code]
      ensures code != "" && hasClipboard ==> copyEvents == old(copyEvents) + (if hasCallback then 1 else 0)
      ensures !(code != "" && hasClipboard) ==> clipboardWrites == old(clipboardWrites) && copyEvents == old(copyEvents)
    {
      if code != "" && hasClipboard {
        clipboardWrites := clipboardWrites + [code];
        if hasCallback {
          copyEvents := copyEvents + 1;
        }
      }
    }
  }

  // ---------------------------------------------------------------------------
  // Diagram blocks

  const DefaultFailure := "Diagram failed to render"

  /** The error shown for a failure whose message is `message` ("" standing for a missing or empty one). */
  function ErrorMessage(message: string): (r: string)
    ensures |r| > |"Mermaid error: "| + |". Check your diagram syntax."|
  {
    var msg := if message != "" then message else DefaultFailure;
    "Mermaid error: " + msg + ". Check your diagram syntax."
  }

  /** The failure's message can be read back from the text, and a missing message reads as the default. */
  lemma ErrorMessageShowsMessage(message: string)
    ensures var r := ErrorMessage(message);
            var body := r[|"Mermaid error: "|..|r| - |". Check your diagram syntax."|];
            r[..|"Mermaid error: "|] == "Mermaid error: "
            && r[|r| - |". Check your diagram syntax."|..] == ". Check your diagram syntax."
            && body == (if message != "" then message else DefaultFailure)
  {
  }

  /** Distinct non-empty messages give distinct texts; an empty message is shown as the default one. */
  lemma ErrorMessageInjective(a: string, b: string)
    requires a != "" && b != "" && ErrorMessage(a) == ErrorMessage(b)
    ensures a == b
  {
    ErrorMessageShowsMessage(a);
    ErrorMessageShowsMessage(b);
  }

  /** `window.mermaid`: absent, being imported (the corrected model only), or present. */
  datatype Engine = Absent | Loading | Ready

  /** Where a diagram block's effect stands. */
  datatype Phase = Idle | AwaitingEngine | AwaitingRender | Finished

  /** The page-wide engine slot and the number of times the engine was initialised. */
  class MermaidGlobal {
    var engine: Engine
    var initializations: nat

    /** The engine is initialised at most once, and is present exactly when it was. */
    predicate Valid()
      reads this
    {
      initializations <= 1 && (engine == Ready <==> initializations == 1)
    }

    constructor ()
      ensures engine == Absent && initializations == 0 && Valid()
    {
      engine := Absent;
      initializations := 0;
    }

    /** The one shared import settles: on success the engine is stored and initialised; on failure the slot is free again. */
    method FinishLoading(loaded: bool)
      requires Valid() && engine == Loading
      modifies this
      ensures Valid()
      ensures loaded ==> engine == Ready && initializations == 1
      ensures !loaded ==> engine == Absent && initializations == 0
    {
      if loaded {
        engine := Ready;
        initializations := initializations + 1;
      } else {
        engine := Absent;
      }
    }
  }

  class MermaidBlock {
    const code: string
    var phase: Phase
    var error: Option<string>
    /** The text of the element placed in the container, once the effect ran. */
    var source: Option<string>

    constructor (code: string)
      ensures this.code == code && phase == Idle && error == None && source == None
    {
      this.code := code;
      phase := Idle;
      error := None;
      source := None;
    }

    /**
     * The effect up to its first await, as written: blank code does nothing;
     * otherwise the error is cleared, the trimmed code is placed, and the
     * block either imports the engine (it is not present yet) or renders.
     */
    method MountAsWritten(g: MermaidGlobal)
      modifies this
      ensures Trim(code) == "" ==> phase == old(phase) && error == old(error) && source == old(source)
      ensures Trim(code) != "" ==> error == None && source == Some(Trim(code))
      ensures Trim(code) != "" ==> phase == (if g.engine == Ready then AwaitingRender else AwaitingEngine)
    {
      var clean := Trim(code);
      if clean == "" {
        return;
      }
      error := None;
      source := Some(clean);
      phase := if g.engine == Ready then AwaitingRender else AwaitingEngine;
    }

    /**
     * This block's own `import("mermaid")` settles, as written: on success it
     * stores and initialises the engine whatever another block did meanwhile.
     */
    method EngineImportedAsWritten(g: MermaidGlobal, failure: Option<string>)
      requires phase == AwaitingEngine
      modifies this, g
      ensures failure.None? ==> g.engine == Ready && g.initializations == old(g.initializations) + 1
      ensures failure.None? ==> phase == AwaitingRender && error == old(error)
      ensures failure.Some? ==> g.engine == old(g.engine) && g.initializations == old(g.initializations)
      ensures failure.Some? ==> phase == Finished && error == Some(ErrorMessage(failure.value))
    {
      if failure.None? {
        g.engine := Ready;
        g.initializations := g.initializations + 1;
        phase := AwaitingRender;
      } else {
        phase := Finished;
        error := Some(ErrorMessage(failure.value));
      }
    }

    /**
     * The effect up to its first await, corrected: the first block to need
     * the engine starts the one import, later blocks wait for it.
     */
    method Mount(g: MermaidGlobal)
      requires g.Valid()
      modifies this, g`engine
      ensures g.Valid() && g.initializations == old(g.initializations)
      ensures Trim(code) == "" ==> phase == old(phase) && error == old(error) && source == old(source)
      ensures Trim(code) == "" ==> g.engine == old(g.engine)
      ensures Trim(code) != "" ==> error == None && source == Some(Trim(code))
      ensures Trim(code) != "" ==> phase == (if old(g.engine) == Ready then AwaitingRender else AwaitingEngine)
      ensures Trim(code) != "" ==> g.engine == (if old(g.engine) == Absent then Loading else old(g.engine))
    {
      var clean := Trim(code);
      if clean == "" {
        return;
      }
      error := None;
      source := Some(clean);
      if g.engine == Ready {
        phase := AwaitingRender;
      } else {
        if g.engine == Absent {
          g.engine := Loading;
        }
        phase := AwaitingEngine;
      }
    }

    /** A waiting block resumes once the shared import has settled: it renders, or shows the import's failure. */
    method Resume(g: MermaidGlobal, importFailure: string)
      requires phase == AwaitingEngine && g.engine != Loading
      modifies this
      ensures g.engine == Ready ==> phase == AwaitingRender && error == old(error)
      ensures g.engine != Ready ==> phase == Finished && error == Some(ErrorMessage(importFailure))
    {
      if g.engine == Ready {
        phase := AwaitingRender;
      } else {
        phase := Finished;
        error := Some(ErrorMessage(importFailure));
      }
    }

    /** `await window.mermaid.run(...)` settles: a failure is caught and shown, never rethrown. */
    method RenderSettled(failure: Option<string>)
      requires phase == AwaitingRender
      modifies this
      ensures phase == Finished
      ensures failure.None? ==> error == old(error)
      ensures failure.Some? ==> error == Some(ErrorMessage(failure.value))
    {
      phase := Finished;
      if failure.Some? {
        error := Some(ErrorMessage(failure.value));
      }
    }
  }

  /** Code that starts with a visible character is not blank. */
  lemma VisibleStartNotBlank(s: string)
    requires s != [] && !IsWhitespace(s[0])
    ensures Trim(s) != ""
  {
    TrimEmptyIffBlank(s);
  }

  /**
   * As written, two diagram blocks mounted in one commit both find the
   * engine absent, both import it, and the engine is initialised twice.
   */
  method TwoDiagramsInOneCommitAsWritten() returns (initializations: nat)
    ensures initializations == 2
  {
    var g := new MermaidGlobal();
    var first := new MermaidBlock("graph TD; A-->B");
    var second := new MermaidBlock("graph TD; C-->D");
    VisibleStartNotBlank(first.code);
    VisibleStartNotBlank(second.code);
    first.MountAsWritten(g);
    second.MountAsWritten(g);
    first.EngineImportedAsWritten(g, None);
    second.EngineImportedAsWritten(g, None);
    initializations := g.initializations;
  }

  /** Corrected, the same two blocks share one import and the engine is initialised once; both go on to render. */
  method TwoDiagramsInOneCommit() returns (initializations: nat, bothRender: bool)
    ensures initializations == 1 && bothRender
  {
    var g := new MermaidGlobal();
    var first := new MermaidBlock("graph TD; A-->B");
    var second := new MermaidBlock("graph TD; C-->D");
    VisibleStartNotBlank(first.code);
    VisibleStartNotBlank(second.code);
    first.Mount(g);
    second.Mount(g);
    g.FinishLoading(true);
    first.Resume(g, "");
    second.Resume(g, "");
    initializations := g.initializations;
    bothRender := first.phase == AwaitingRender && second.phase == AwaitingRender;
  }
}

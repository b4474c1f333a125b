/**
  The code-interpreter copilot's host side
  (code-interpreter-copilot/code_interpreter_copilot/main.py): escaping of
  chat text, loading of widget context into named dataframes, classification
  of the worker's output into artifacts, and the budgeted LLM loop.
*/
module CodeCopilot {
  import opened Wrappers
  import opened Json
  import opened Text
  import opened Models
  import Interpreter

  // ---------------------------------------------------------------------------
  // sanitize_message

  /** `c` at position `i` has no `c` on either side: what the pattern `(?<!c)c(?!c)` matches. */
  predicate LoneAt(s: string, i: int, c: char)
    requires 0 <= i < |s|
  {
    s[i] == c && (i == 0 || s[i - 1] != c) && (i + 1 == |s| || s[i + 1] != c)
  }

  /** What `re.sub` puts in place of position `i`: a lone `c` doubled, any other character itself. */
  function Piece(s: string, i: int, c: char): string
    requires 0 <= i < |s|
  {
    if LoneAt(s, i, c) then [c, c] else [s[i]]
  }

  /** `re.sub(r"(?<!c)c(?!c)", cc, s)`, position by position from `k` on. */
  function SubFrom(s: string, c: char, k: nat): string
    requires k <= |s|
    decreases |s| - k
  {
    if k == |s| then "" else Piece(s, k, c) + SubFrom(s, c, k + 1)
  }

  /**
    One substitution pass as a single scan: `afterC` says whether the
    character before `s` was `c`.
  */
  function Escape(s: string, c: char, afterC: bool): (r: string)
    ensures |r| >= |s|
    ensures s != [] ==> r != [] && r[0] == s[0]
    decreases |s|
  {
    if s == [] then []
    else
      var lone := s[0] == c && !afterC && (|s| == 1 || s[1] != c);
      (if lone then [c, c] else [s[0]]) + Escape(s[1..], c, s[0] == c)
  }

  /** `sanitize_message`: lone `{` doubled, then lone `}` doubled. */
  function Sanitize(message: string): string {
    Escape(Escape(message, '{', false), '}', false)
  }

  /** No lone `c` in `s`, scanning with `afterC` as in `Escape`. */
  predicate NoLone(s: string, c: char, afterC: bool)
    decreases |s|
  {
    s == [] || ((s[0] == c ==> afterC || (|s| > 1 && s[1] == c)) && NoLone(s[1..], c, s[0] == c))
  }

  /** The scan performs exactly the regular-expression substitution. */
  lemma EscapeIsSubstitution(s: string, c: char)
    ensures Escape(s, c, false) == SubFrom(s, c, 0)
  {
    EscapeSuffix(s, c, 0);
    assert s[0..] == s;
  }

  lemma {:induction false} EscapeSuffix(s: string, c: char, k: nat)
    requires k <= |s|
    ensures Escape(s[k..], c, k > 0 && s[k - 1] == c) == SubFrom(s, c, k)
    decreases |s| - k
  {
    if k < |s| {
      EscapeSuffix(s, c, k + 1);
      assert s[k..][1..] == s[k + 1..];
    }
  }

  /** `NoLone` says, position by position, that nothing is lone. */
  lemma NoLoneMeans(s: string, c: char)
    ensures NoLone(s, c, false) <==> forall i :: 0 <= i < |s| ==> !LoneAt(s, i, c)
  {
    NoLoneSuffix(s, c, 0);
    assert s[0..] == s;
  }

  lemma {:induction false} NoLoneSuffix(s: string, c: char, k: nat)
    requires k <= |s|
    ensures NoLone(s[k..], c, k > 0 && s[k - 1] == c) <==> forall i :: k <= i < |s| ==> !LoneAt(s, i, c)
    decreases |s| - k
  {
    if k < |s| {
      NoLoneSuffix(s, c, k + 1);
      assert s[k..][1..] == s[k + 1..];
      assert s[k..][0] == s[k];
      if k + 1 < |s| {
        assert s[k..][1] == s[k + 1];
      }
      if forall i :: k + 1 <= i < |s| ==> !LoneAt(s, i, c) {
        if !LoneAt(s, k, c) {
          forall i | k <= i < |s|
            ensures !LoneAt(s, i, c)
          {
          }
        }
      }
    }
  }

  /** A pass leaves no lone `c` behind. */
  lemma {:induction false} EscapeLeavesNoLone(s: string, c: char, afterC: bool)
    ensures NoLone(Escape(s, c, afterC), c, afterC)
    decreases |s|
  {
    if s != [] {
      EscapeLeavesNoLone(s[1..], c, s[0] == c);
      var rest := Escape(s[1..], c, s[0] == c);
      var lone := s[0] == c && !afterC && (|s| == 1 || s[1] != c);
      if lone {
        assert ([c, c] + rest)[1..] == [c] + rest;
        assert ([c] + rest)[1..] == rest;
      } else {
        assert ([s[0]] + rest)[1..] == rest;
      }
    }
  }

  /** A pass over one brace keeps the other brace's runs as they were. */
  lemma {:induction false} EscapeKeepsOtherNoLone(s: string, c: char, d: char, afterC: bool, afterD: bool)
    requires c != d && NoLone(s, d, afterD)
    ensures NoLone(Escape(s, c, afterC), d, afterD)
    decreases |s|
  {
    if s != [] {
      EscapeKeepsOtherNoLone(s[1..], c, d, s[0] == c, s[0] == d);
      var rest := Escape(s[1..], c, s[0] == c);
      var lone := s[0] == c && !afterC && (|s| == 1 || s[1] != c);
      if lone {
        assert ([c, c] + rest)[1..] == [c] + rest;
        assert ([c] + rest)[1..] == rest;
      } else {
        assert ([s[0]] + rest)[1..] == rest;
      }
    }
  }

  /** A text without lone `c` passes through unchanged, and only such a text. */
  lemma {:induction false} EscapeFixpoint(s: string, c: char, afterC: bool)
    ensures Escape(s, c, afterC) == s <==> NoLone(s, c, afterC)
    decreases |s|
  {
    if s != [] {
      EscapeFixpoint(s[1..], c, s[0] == c);
      var rest := Escape(s[1..], c, s[0] == c);
      var lone := s[0] == c && !afterC && (|s| == 1 || s[1] != c);
      if lone {
        assert |[c, c] + rest| > |s|;
      } else if Escape(s, c, afterC) == s {
        assert rest == Escape(s, c, afterC)[1..];
      }
    }
  }

  /** After sanitizing, no brace is lone. */
  lemma SanitizeLeavesNoLoneBrace(message: string)
    ensures var r := Sanitize(message);
            forall i :: 0 <= i < |r| ==> !LoneAt(r, i, '{') && !LoneAt(r, i, '}')
  {
    var once := Escape(message, '{', false);
    EscapeLeavesNoLone(message, '{', false);
    EscapeKeepsOtherNoLone(once, '}', '{', false, false);
    EscapeLeavesNoLone(once, '}', false);
    NoLoneMeans(Sanitize(message), '{');
    NoLoneMeans(Sanitize(message), '}');
  }

  /** Sanitizing twice is sanitizing once. */
  lemma SanitizeIdempotent(message: string)
    ensures Sanitize(Sanitize(message)) == Sanitize(message)
  {
    var once := Escape(message, '{', false);
    var r := Sanitize(message);
    EscapeLeavesNoLone(message, '{', false);
    EscapeKeepsOtherNoLone(once, '}', '{', false, false);
    EscapeLeavesNoLone(once, '}', false);
    EscapeFixpoint(r, '{', false);
    EscapeFixpoint(r, '}', false);
  }

  /** A message is left as it is exactly when it has no lone brace. */
  lemma SanitizeUnchanged(message: string)
    ensures Sanitize(message) == message
            <==> forall i :: 0 <= i < |message| ==> !LoneAt(message, i, '{') && !LoneAt(message, i, '}')
  {
    var once := Escape(message, '{', false);
    EscapeFixpoint(message, '{', false);
    EscapeFixpoint(once, '}', false);
    NoLoneMeans(message, '{');
    NoLoneMeans(message, '}');
    EscapeGrows(message, '{', false);
  }

  /** A pass that changes its text makes it longer. */
  lemma {:induction false} EscapeGrows(s: string, c: char, afterC: bool)
    ensures Escape(s, c, afterC) == s || |Escape(s, c, afterC)| > |s|
    decreases |s|
  {
    if s != [] {
      EscapeGrows(s[1..], c, s[0] == c);
      var rest := Escape(s[1..], c, s[0] == c);
      if rest == s[1..] {
        assert [s[0]] + rest == s;
      }
    }
  }

  predicate IsBrace(ch: char) { ch == '{' || ch == '}' }

  /** The characters of `s` that are not braces, in order. */
  function Unbraced(s: string): (r: string)
    ensures |r| <= |s|
    decreases |s|
  {
    if s == [] then [] else (if IsBrace(s[0]) then [] else [s[0]]) + Unbraced(s[1..])
  }

  lemma {:induction false} EscapeKeepsText(s: string, c: char, afterC: bool)
    requires IsBrace(c)
    ensures Unbraced(Escape(s, c, afterC)) == Unbraced(s)
    decreases |s|
  {
    if s != [] {
      EscapeKeepsText(s[1..], c, s[0] == c);
      var rest := Escape(s[1..], c, s[0] == c);
      var lone := s[0] == c && !afterC && (|s| == 1 || s[1] != c);
      if lone {
        assert ([c, c] + rest)[1..] == [c] + rest;
        assert ([c] + rest)[1..] == rest;
        assert Unbraced([c, c] + rest) == Unbraced([c] + rest) == Unbraced(rest);
      } else {
        assert ([s[0]] + rest)[1..] == rest;
        assert Unbraced([s[0]] + rest) == (if IsBrace(s[0]) then [] else [s[0]]) + Unbraced(rest);
      }
    }
  }

  /** Sanitizing touches braces only: the other characters stay, in order. */
  lemma SanitizeKeepsText(message: string)
    ensures Unbraced(Sanitize(message)) == Unbraced(message)
  {
    EscapeKeepsText(message, '{', false);
    EscapeKeepsText(Escape(message, '{', false), '}', false);
  }

  // ---------------------------------------------------------------------------
  // handle_context

  /** `RawContext`, with `data.content` as the decoded value it holds. */
  datatype RawContext = RawContext(name: string, description: string, data: Json, metadata: Option<map<string, Json>>)

  /** `context: str | list[RawContext]` */
  datatype ContextArg = TextContext(text: string) | ItemList(items: seq<RawContext>)

  /** A loaded dataframe: the data it was built from and its preview. */
  datatype Frame = Frame(data: Json, preview: string)

  /** What one widget adds to the prompt: its name, variable, description, metadata and preview. */
  datatype PromptSection = PromptSection(name: string, variable: string, description: string, metadata: string, preview: string)

  /**
    `HandledContext`. The prompt string is kept as the sections it is the
    concatenation of; `PromptText` renders it.
  */
  datatype HandledContext = HandledContext(sections: seq<PromptSection>, loaded: map<string, Frame>)

  /**
    The foreign parts of loading context: building a dataframe from a widget's
    data and previewing it (`None` when `json.loads` or pandas raises), `str`
    of a metadata dict, and `str` of a symbol that is not a string.
  */
  datatype ContextEnv = ContextEnv(
    preview: Json -> Option<string>,
    showMetadata: Option<map<string, Json>> -> string,
    show: Json -> string)

  /** `"_" + symbol` when the metadata has a truthy `symbol`, otherwise "". */
  function SymbolSuffix(metadata: Option<map<string, Json>>, show: Json -> string): string {
    if metadata.Some? && "symbol" in metadata.value && Truthy(metadata.value["symbol"])
    then "_" + Shown(metadata.value["symbol"], show)
    else ""
  }

  /** The characters replaced by `_` in a widget name. */
  predicate Separator(ch: char) {
    ch == ' ' || ch == '-' || ch == '.'
  }

  /** A widget name with separators turned into `_`, lower-cased. */
  function CleanChars(name: string): (r: string)
    ensures |r| == |name|
    decreases |name|
  {
    if name == [] then [] else [LowerChar(if Separator(name[0]) then '_' else name[0])] + CleanChars(name[1..])
  }

  function LowerChars(s: string): (r: string)
    ensures |r| == |s|
    decreases |s|
  {
    if s == [] then [] else [LowerChar(s[0])] + LowerChars(s[1..])
  }

  /**
    The variable a widget's dataframe is bound to: `df_`, the cleaned widget
    name, then the symbol suffix, which is lower-cased but not cleaned.
  */
  function CleanName(name: string, metadata: Option<map<string, Json>>, show: Json -> string): (r: string)
    ensures |r| == 3 + |name| + |SymbolSuffix(metadata, show)|
    ensures r[..3] == "df_"
  {
    "df_" + CleanChars(name) + LowerChars(SymbolSuffix(metadata, show))
  }

  lemma {:induction false} CleanCharsPointwise(name: string)
    ensures forall i :: 0 <= i < |name| ==> CleanChars(name)[i] == LowerChar(if Separator(name[i]) then '_' else name[i])
    decreases |name|
  {
    if name != [] {
      CleanCharsPointwise(name[1..]);
    }
  }

  lemma {:induction false} LowerCharsIsLower(s: string)
    ensures LowerChars(s) == Lower(s)
    decreases |s|
  {
    if s != [] {
      LowerCharsIsLower(s[1..]);
    }
  }

  /** The three `replace` calls, position by position. */
  lemma ReplacedSeparators(name: string)
    ensures var cleaned := ReplaceChar(ReplaceChar(ReplaceChar(name, ' ', '_'), '-', '_'), '.', '_');
            |cleaned| == |name|
            && forall i :: 0 <= i < |name| ==> cleaned[i] == if Separator(name[i]) then '_' else name[i]
  {
  }

  lemma LowerConcat(a: string, b: string)
    ensures Lower(a + b) == Lower(a) + Lower(b)
  {
    var l, r := Lower(a + b), Lower(a) + Lower(b);
    assert |l| == |r|;
    forall i | 0 <= i < |l|
      ensures l[i] == r[i]
    {
      if i < |a| {
        assert (a + b)[i] == a[i];
      } else {
        assert (a + b)[i] == b[i - |a|];
      }
    }
  }

  lemma CleanCharsIsLowerCleaned(name: string)
    ensures CleanChars(name) == Lower(ReplaceChar(ReplaceChar(ReplaceChar(name, ' ', '_'), '-', '_'), '.', '_'))
  {
    CleanCharsPointwise(name);
    ReplacedSeparators(name);
  }

  /** The naming rule as the source spells it: three replacements, the suffix, then `lower()` of the whole. */
  lemma CleanNameAsWritten(name: string, metadata: Option<map<string, Json>>, show: Json -> string)
    ensures CleanName(name, metadata, show)
            == Lower("df_" + ReplaceChar(ReplaceChar(ReplaceChar(name, ' ', '_'), '-', '_'), '.', '_')
                     + SymbolSuffix(metadata, show))
  {
    var suffix := SymbolSuffix(metadata, show);
    var cleaned := ReplaceChar(ReplaceChar(ReplaceChar(name, ' ', '_'), '-', '_'), '.', '_');
    LowerConcat("df_" + cleaned, suffix);
    LowerConcat("df_", cleaned);
    assert Lower("df_") == "df_";
    CleanCharsIsLowerCleaned(name);
    LowerCharsIsLower(suffix);
  }

  lemma NameSeparatorsReplaced(name: string, metadata: Option<map<string, Json>>, show: Json -> string)
    ensures forall i :: 0 <= i < |name| && Separator(name[i]) ==> CleanName(name, metadata, show)[3 + i] == '_'
  {
    var full := CleanName(name, metadata, show);
    assert full == "df_" + CleanChars(name) + LowerChars(SymbolSuffix(metadata, show));
    forall i | 0 <= i < |name| && Separator(name[i])
      ensures full[3 + i] == '_'
    {
      CleanCharsPointwise(name);
      assert full[3 + i] == CleanChars(name)[i];
    }
  }

  lemma SymbolSuffixLowered(name: string, metadata: Option<map<string, Json>>, show: Json -> string)
    requires metadata.Some? && "symbol" in metadata.value && Truthy(metadata.value["symbol"])
    ensures CleanName(name, metadata, show) == "df_" + CleanChars(name) + "_" + Lower(Shown(metadata.value["symbol"], show))
  {
    var sym := Shown(metadata.value["symbol"], show);
    var suffix := SymbolSuffix(metadata, show);
    assert suffix == "_" + sym;
    LowerCharsIsLower(suffix);
    LowerConcat("_", sym);
    assert Lower("_") == "_";
  }

  lemma LowerKeepsDots(s: string, lowered: string, k: nat)
    requires |lowered| == k + |s| && lowered[k..] == Lower(s)
    ensures forall i :: 0 <= i < |s| && s[i] == '.' ==> lowered[k + i] == '.'
  {
    forall i | 0 <= i < |s| && s[i] == '.'
      ensures lowered[k + i] == '.'
    {
      assert lowered[k + i] == lowered[k..][i];
    }
  }

  /**
    The name part is cleaned, the symbol is not: a truthy `symbol` adds `_`
    and its text lower-cased, dots kept, while a name's separators all become
    `_`; a missing or falsy symbol adds nothing.
  */
  lemma SymbolNotCleaned(name: string, metadata: Option<map<string, Json>>, show: Json -> string)
    ensures metadata.Some? && "symbol" in metadata.value && Truthy(metadata.value["symbol"]) ==>
              var sym := Shown(metadata.value["symbol"], show);
              && CleanName(name, metadata, show) == "df_" + CleanChars(name) + "_" + Lower(sym)
              && forall i :: 0 <= i < |sym| && sym[i] == '.' ==> CleanName(name, metadata, show)[|name| + 4 + i] == '.'
    ensures !(metadata.Some? && "symbol" in metadata.value && Truthy(metadata.value["symbol"])) ==>
              CleanName(name, metadata, show) == "df_" + CleanChars(name)
    ensures forall i :: 0 <= i < |name| && Separator(name[i]) ==> CleanName(name, metadata, show)[3 + i] == '_'
  {
    NameSeparatorsReplaced(name, metadata, show);
    if metadata.Some? && "symbol" in metadata.value && Truthy(metadata.value["symbol"]) {
      var sym := Shown(metadata.value["symbol"], show);
      var full := CleanName(name, metadata, show);
      SymbolSuffixLowered(name, metadata, show);
      assert full[|name| + 4..] == Lower(sym);
      LowerKeepsDots(sym, full, |name| + 4);
    }
  }

  function VariableOf(item: RawContext, env: ContextEnv): string {
    CleanName(item.name, item.metadata, env.show)
  }

  const SectionEnd: string := "---\n\n"

  /** The text `handle_context` appends to the prompt for one widget. */
  function Render(sec: PromptSection): (r: string)
    ensures EndsWith(r, SectionEnd)
  {
    var body := "## " + sec.name + "\n"
                + "Available as a pandas dataframe via the variable `" + sec.variable + "` in the code interpreter.\n"
                + "Description: " + sec.description + "\n"
                + "Metadata: " + sec.metadata + "\n"
                + "Preview:\n" + sec.preview + "\n";
    var r := body + "---" + "\n\n";
    assert r == body + SectionEnd;
    r
  }

  /** `context_prompt_str`: the sections rendered one after the other. */
  function PromptText(sections: seq<PromptSection>): string {
    if sections == [] then "" else PromptText(sections[..|sections| - 1]) + Render(sections[|sections| - 1])
  }

  /** A prompt with sections ends with a section's end marker. */
  lemma PromptTextEnds(sections: seq<PromptSection>)
    requires sections != []
    ensures EndsWith(PromptText(sections), SectionEnd)
  {
    EndsWithAppend(PromptText(sections[..|sections| - 1]), Render(sections[|sections| - 1]), SectionEnd);
  }

  /** The section for a widget whose data loaded with preview `p`. */
  function SectionOf(item: RawContext, p: string, env: ContextEnv): PromptSection {
    PromptSection(item.name, VariableOf(item, env), item.description, env.showMetadata(item.metadata), p)
  }

  /** One turn of the loop: load one widget's data into the context so far. */
  function LoadOne(h: HandledContext, item: RawContext, env: ContextEnv): Option<HandledContext> {
    match env.preview(item.data)
    case None => None
    case Some(p) =>
      Some(HandledContext(h.sections + [SectionOf(item, p, env)],
                          h.loaded[VariableOf(item, env) := Frame(item.data, p)]))
  }

  /** The first `n` items loaded; `None` once building a dataframe raised. */
  function LoadItems(items: seq<RawContext>, n: nat, env: ContextEnv): Option<HandledContext>
    requires n <= |items|
  {
    if n == 0 then Some(HandledContext([], map[]))
    else match LoadItems(items, n - 1, env)
      case None => None
      case Some(h) => LoadOne(h, items[n - 1], env)
  }

  /** `handle_context`: a text context loads nothing. */
  function ContextSpec(context: ContextArg, env: ContextEnv): Option<HandledContext> {
    match context
    case TextContext(_) => Some(HandledContext([], map[]))
    case ItemList(items) => LoadItems(items, |items|, env)
  }

  lemma {:induction false} LoadFailureStays(items: seq<RawContext>, m: nat, n: nat, env: ContextEnv)
    requires m <= n <= |items|
    requires LoadItems(items, m, env).None?
    ensures LoadItems(items, n, env).None?
    decreases n - m
  {
    if m < n {
      LoadFailureStays(items, m + 1, n, env);
    }
  }

  /** `handle_context`, with its loop over the widgets. */
  method HandleContext(context: ContextArg, env: ContextEnv) returns (r: Option<HandledContext>)
    ensures r == ContextSpec(context, env)
  {
    var sections: seq<PromptSection> := [];
    var loaded: map<string, Frame> := map[];
    if context.ItemList? {
      var items := context.items;
      for i := 0 to |items|
        invariant LoadItems(items, i, env) == Some(HandledContext(sections, loaded))
      {
        var item := items[i];
        var preview := env.preview(item.data);
        if preview.None? {
          LoadFailureStays(items, i + 1, |items|, env);
          return None;
        }
        var variable := CleanName(item.name, item.metadata, env.show);
        loaded := loaded[variable := Frame(item.data, preview.value)];
        sections := sections + [PromptSection(item.name, variable, item.description, env.showMetadata(item.metadata), preview.value)];
      }
    }
    return Some(HandledContext(sections, loaded));
  }

  predicate Loadable(items: seq<RawContext>, n: nat, env: ContextEnv)
    requires n <= |items|
  {
    forall i :: 0 <= i < n ==> env.preview(items[i].data).Some?
  }

  /** Item `i` is the last of the first `n` with its variable name. */
  predicate LastWithName(items: seq<RawContext>, n: nat, i: nat, env: ContextEnv)
    requires i < n <= |items|
  {
    forall j :: i < j < n ==> VariableOf(items[j], env) != VariableOf(items[i], env)
  }

  /** Loading succeeds exactly when every widget's data loads. */
  lemma {:induction false} LoadItemsSucceeds(items: seq<RawContext>, n: nat, env: ContextEnv)
    requires n <= |items|
    ensures LoadItems(items, n, env).Some? <==> Loadable(items, n, env)
  {
    if n > 0 {
      LoadItemsSucceeds(items, n - 1, env);
      assert Loadable(items, n, env) <==> Loadable(items, n - 1, env) && env.preview(items[n - 1].data).Some?;
      var prev := LoadItems(items, n - 1, env);
      if prev.Some? {
        assert LoadItems(items, n, env) == LoadOne(prev.value, items[n - 1], env);
      }
    }
  }

  /** The set of variables a loaded context binds, one per distinct cleaned name. */
  function Variables(items: seq<RawContext>, n: nat, env: ContextEnv): set<string>
    requires n <= |items|
  {
    set i | 0 <= i < n :: VariableOf(items[i], env)
  }

  /** Every widget's variable is bound, and nothing else is. */
  lemma {:induction false} LoadedKeys(items: seq<RawContext>, n: nat, env: ContextEnv)
    requires n <= |items| && LoadItems(items, n, env).Some?
    ensures LoadItems(items, n, env).value.loaded.Keys == Variables(items, n, env)
  {
    if n > 0 {
      LoadedKeys(items, n - 1, env);
      var v := VariableOf(items[n - 1], env);
      assert Variables(items, n, env) == Variables(items, n - 1, env) + {v} by {
        forall x | x in Variables(items, n, env)
          ensures x in Variables(items, n - 1, env) + {v}
        {
          var i :| 0 <= i < n && x == VariableOf(items[i], env);
          if i < n - 1 {
            assert x in Variables(items, n - 1, env);
          }
        }
      }
    }
  }

  /**
    A variable is bound to the frame of the last widget with that name: a
    later widget overwrites an earlier one.
  */
  lemma {:induction false} LoadedFrames(items: seq<RawContext>, n: nat, env: ContextEnv, i: nat)
    requires i < n <= |items| && LoadItems(items, n, env).Some?
    requires LastWithName(items, n, i, env)
    ensures var loaded := LoadItems(items, n, env).value.loaded;
            && VariableOf(items[i], env) in loaded
            && loaded[VariableOf(items[i], env)].data == items[i].data
            && env.preview(items[i].data) == Some(loaded[VariableOf(items[i], env)].preview)
  {
    if i < n - 1 {
      assert LastWithName(items, n - 1, i, env);
      LoadedFrames(items, n - 1, env, i);
    }
  }

  /** The prompt has one section per widget, in order. */
  lemma {:induction false} PromptSections(items: seq<RawContext>, n: nat, env: ContextEnv)
    requires n <= |items| && LoadItems(items, n, env).Some?
    ensures var secs := LoadItems(items, n, env).value.sections;
            && |secs| == n
            && forall i :: 0 <= i < n ==>
                 env.preview(items[i].data) == Some(secs[i].preview) && secs[i] == SectionOf(items[i], secs[i].preview, env)
  {
    if n > 0 {
      PromptSections(items, n - 1, env);
    }
  }

  /** A text context, or an empty list, gives an empty prompt and no variables. */
  lemma NoItemsLoadNothing(context: ContextArg, env: ContextEnv)
    requires context.TextContext? || context.items == []
    ensures ContextSpec(context, env) == Some(HandledContext([], map[]))
  {
  }

  // ---------------------------------------------------------------------------
  // Binding the context in `query`

  /** Python truthiness of the request's `context`. */
  predicate ContextTruthy(context: Option<ContextArg>) {
    match context
    case None => false
    case Some(TextContext(text)) => text != ""
    case Some(ItemList(items)) => items != []
  }

  /** What `handled_context` holds when the LLM loop first reads it. */
  datatype ContextBinding = Unbound | LoadRaised | Bound(handled: HandledContext)

  function BindingOf(r: Option<HandledContext>): ContextBinding {
    match r
    case None => LoadRaised
    case Some(h) => Bound(h)
  }

  /**
    As written, `handled_context` is only assigned under `if request.context:`;
    for a request without context the loop then reads an unbound name.
  */
  function BindContextAsWritten(context: Option<ContextArg>, env: ContextEnv): ContextBinding {
    if ContextTruthy(context) then BindingOf(ContextSpec(context.value, env)) else Unbound
  }

  /** A request with no, an empty text or an empty list of context leaves `handled_context` unbound. */
  lemma NoContextIsUnbound(env: ContextEnv)
    ensures BindContextAsWritten(None, env) == Unbound
    ensures BindContextAsWritten(Some(TextContext("")), env) == Unbound
    ensures BindContextAsWritten(Some(ItemList([])), env) == Unbound
  {
  }

  /** The evident intent: a request without context is served with an empty one. */
  function BindContext(context: Option<ContextArg>, env: ContextEnv): (r: ContextBinding)
    ensures r != Unbound
    ensures BindContextAsWritten(context, env) != Unbound ==> r == BindContextAsWritten(context, env)
    ensures !ContextTruthy(context) ==> r == Bound(HandledContext([], map[]))
  {
    if ContextTruthy(context) then BindingOf(ContextSpec(context.value, env)) else Bound(HandledContext([], map[]))
  }

  // ---------------------------------------------------------------------------
  // handle_function_call

  const JsonFence: string := "```json"
  const Fence: string := "```"

  /** `output.split("```json")[1].split("```")[0]`, when there is a JSON block. */
  function FencedBlock(output: string): (r: Option<string>)
    ensures r.Some? <==> Contains(output, JsonFence)
    ensures r.Some? ==> var rest := AfterFirst(output, JsonFence).value;
                        && StartsWith(rest, r.value) && !Contains(r.value, Fence)
                        && (r.value == rest || StartsWith(rest[|r.value|..], Fence))
  {
    match SplitSecond(output, JsonFence)
    case None => None
    case Some(after) => Some(UpTo(after, Fence))
  }

  /** Why classifying the output raised. */
  datatype CallError =
    | NotJson           // `json.loads` raised
    | NotText           // `json.loads` of a value that is not a string
    | NotSubscriptable  // `[key]` on a value that is not a dict
    | MissingKey(key: string)
    | BadChartParams    // `ChartParameters` validation
    | BadArtifact(error: ArtifactError)

  /** `j[key]` */
  function Index(j: Json, key: string): Result<Json, CallError> {
    if !j.JObj? then Failure(NotSubscriptable)
    else if key !in j.fields then Failure(MissingKey(key))
    else Success(j.fields[key])
  }

  /** `json.loads(j)` */
  function Loads(j: Json, decode: string -> Option<Json>): Result<Json, CallError> {
    if !j.JStr? then Failure(NotText)
    else match decode(j.s)
      case None => Failure(NotJson)
      case Some(v) => Success(v)
  }

  function Built(r: Result<ClientArtifact, ArtifactError>): Result<ClientArtifact, CallError> {
    match r
    case Failure(e) => Failure(BadArtifact(e))
    case Success(a) => Success(a)
  }

  /** `ChartParameters(chartType=cp["chartType"], xKey=cp["xKey"], yKey=[cp["yKey"]])` */
  function ChartParamsOf(j: Json): (r: Result<ChartParameters, CallError>)
    ensures r.Success? ==> j.JObj? && "chart_params" in j.fields
    ensures r.Success? ==> var cp := j.fields["chart_params"];
                           && cp.JObj? && "yKey" in cp.fields && cp.fields["yKey"].JStr?
                           && r.value.yKey == [cp.fields["yKey"].s]
    ensures r.Success? <==> j.JObj? && "chart_params" in j.fields
                            && var cp := j.fields["chart_params"];
                            && cp.JObj? && "chartType" in cp.fields && "xKey" in cp.fields && "yKey" in cp.fields
                            && MakeChartParameters(cp.fields["chartType"], cp.fields["xKey"], [cp.fields["yKey"]]).Some?
    ensures r.Success? ==> var cp := j.fields["chart_params"];
                           Some(r.value) == MakeChartParameters(cp.fields["chartType"], cp.fields["xKey"], [cp.fields["yKey"]])
  {
    match Index(j, "chart_params")
    case Failure(e) => Failure(e)
    case Success(cp) =>
      match Index(cp, "chartType")
      case Failure(e) => Failure(e)
      case Success(chartType) =>
        match Index(cp, "xKey")
        case Failure(e) => Failure(e)
        case Success(xKey) =>
          match Index(cp, "yKey")
          case Failure(e) => Failure(e)
          case Success(yKey) =>
            match MakeChartParameters(chartType, xKey, [yKey])
            case None => Failure(BadChartParams)
            case Some(p) => assert [yKey][0] == yKey; Success(p)
  }

  /** The two `uuid4()`s an artifact gets: one in its name, one as its `uuid`. */
  datatype ArtifactIds = ArtifactIds(nameId: string, uuid: string)

  /**
    `handle_function_call`, given the code the LLM asked to run and the
    worker's output for it.
  */
  function HandleFunctionCall(code: string, output: string, decode: string -> Option<Json>, ids: ArtifactIds)
    : (r: Result<ClientArtifact, CallError>)
    ensures !Contains(output, JsonFence) ==>
              r == Success(ClientArtifact(TextArtifact, "text_artifact_" + ids.nameId, code, ids.uuid, TextContent(output), None))
    ensures r.Success? ==> WellFormed(r.value) && r.value.description == code && r.value.uuid == ids.uuid
    ensures r.Success? && Contains(output, JsonFence) ==> r.value.kind != TextArtifact
    ensures r.Success? && r.value.kind == ChartArtifact ==> |r.value.chartParams.value.yKey| == 1
  {
    match FencedBlock(output)
    case None => Built(NewArtifact(TextArtifact, "text_artifact_" + ids.nameId, code, ids.uuid, JStr(output), None))
    case Some(block) =>
      match decode(block)
      case None => Failure(NotJson)
      case Some(j) =>
        match Index(j, "type")
        case Failure(e) => Failure(e)
        case Success(t) =>
          if t == JStr("table") then
            match Index(j, "content")
            case Failure(e) => Failure(e)
            case Success(c) =>
              match Loads(c, decode)
              case Failure(e) => Failure(e)
              case Success(content) =>
                Built(NewArtifact(TableArtifact, "table_artifact_" + ids.nameId, code, ids.uuid, content, None))
          else if t == JStr("chart") then
            match Index(j, "content")
            case Failure(e) => Failure(e)
            case Success(c) =>
              match Loads(c, decode)
              case Failure(e) => Failure(e)
              case Success(content) =>
                match ChartParamsOf(j)
                case Failure(e) => Failure(e)
                case Success(params) =>
                  Built(NewArtifact(ChartArtifact, "chart_artifact_" + ids.nameId, code, ids.uuid, content, Some(params)))
          else
            // `output` now names the decoded dict, which is not valid artifact content
            Built(NewArtifact(TextArtifact, "text_artifact_" + ids.nameId, code, ids.uuid, j, None))
  }

  /**
    A JSON block whose `type` is neither "table" nor "chart" is not shown as
    text: the artifact is built from the decoded dict and fails validation.
  */
  lemma OtherBlockTypeRejected(code: string, output: string, decode: string -> Option<Json>, ids: ArtifactIds,
                               fields: map<string, Json>)
    requires FencedBlock(output).Some? && decode(FencedBlock(output).value) == Some(JObj(fields))
    requires "type" in fields && fields["type"] != JStr("table") && fields["type"] != JStr("chart")
    ensures HandleFunctionCall(code, output, decode, ids) == Failure(BadArtifact(InvalidContent))
  {
  }

  /**
    The block's `type` decides the artifact: "table" gives a table and "chart"
    a chart, named after their kind, whose content is `json.loads` of the
    block's `content`; a block of any other type builds nothing.
  */
  lemma BlockArtifact(code: string, output: string, decode: string -> Option<Json>, ids: ArtifactIds, j: Json)
    requires FencedBlock(output).Some? && decode(FencedBlock(output).value) == Some(j)
    requires HandleFunctionCall(code, output, decode, ids).Success?
    ensures j.JObj? && "type" in j.fields && "content" in j.fields
    ensures var a := HandleFunctionCall(code, output, decode, ids).value;
            && (a.kind == TableArtifact <==> j.fields["type"] == JStr("table"))
            && (a.kind == ChartArtifact <==> j.fields["type"] == JStr("chart"))
            && a.name == (if a.kind == TableArtifact then "table_artifact_" else "chart_artifact_") + ids.nameId
            && Loads(j.fields["content"], decode).Success?
            && Some(a.content) == ContentFromJson(Loads(j.fields["content"], decode).value)
  {
    var r := HandleFunctionCall(code, output, decode, ids);
    assert Contains(output, JsonFence);
    assert r.value.kind != TextArtifact;
  }

  /**
    The converse for tables: a block of type "table" whose `content` decodes to
    valid rows is shown as a table artifact holding those rows.
  */
  lemma TableBlockBuilt(code: string, output: string, decode: string -> Option<Json>, ids: ArtifactIds,
                        fields: map<string, Json>, c: Json)
    requires FencedBlock(output).Some? && decode(FencedBlock(output).value) == Some(JObj(fields))
    requires "type" in fields && fields["type"] == JStr("table") && "content" in fields
    requires Loads(fields["content"], decode) == Success(c) && ContentFromJson(c).Some?
    ensures HandleFunctionCall(code, output, decode, ids)
            == Success(ClientArtifact(TableArtifact, "table_artifact_" + ids.nameId, code, ids.uuid,
                                      ContentFromJson(c).value, None))
  {
  }

  /**
    The converse for charts: a block of type "chart" whose `content` decodes to
    valid rows and whose `chart_params` are valid is shown as a chart artifact.
  */
  lemma ChartBlockBuilt(code: string, output: string, decode: string -> Option<Json>, ids: ArtifactIds,
                        fields: map<string, Json>, c: Json, p: ChartParameters)
    requires FencedBlock(output).Some? && decode(FencedBlock(output).value) == Some(JObj(fields))
    requires "type" in fields && fields["type"] == JStr("chart") && "content" in fields
    requires Loads(fields["content"], decode) == Success(c) && ContentFromJson(c).Some?
    requires ChartParamsOf(JObj(fields)) == Success(p)
    ensures HandleFunctionCall(code, output, decode, ids)
            == Success(ClientArtifact(ChartArtifact, "chart_artifact_" + ids.nameId, code, ids.uuid,
                                      ContentFromJson(c).value, Some(p)))
  {
  }

  /** A chart's single y column is the block's `yKey`, wrapped in a list. */
  lemma ChartYKeyWrapped(code: string, output: string, decode: string -> Option<Json>, ids: ArtifactIds, j: Json)
    requires FencedBlock(output).Some? && decode(FencedBlock(output).value) == Some(j)
    requires HandleFunctionCall(code, output, decode, ids).Success?
    requires HandleFunctionCall(code, output, decode, ids).value.kind == ChartArtifact
    ensures j.JObj? && "chart_params" in j.fields
    ensures var cp := j.fields["chart_params"];
            && cp.JObj? && "yKey" in cp.fields && cp.fields["yKey"].JStr?
            && HandleFunctionCall(code, output, decode, ids).value.chartParams.value.yKey == [cp.fields["yKey"].s]
            && HandleFunctionCall(code, output, decode, ids).value.name == "chart_artifact_" + ids.nameId
  {
  }

  // ---------------------------------------------------------------------------
  // query: the chat history

  /** An entry of `request.messages`: a chat message, or a client function call result. */
  datatype RequestMessage = ChatEntry(message: LlmMessage) | ClientCallResult(role: Role)

  /** The messages the LLM is prompted with. */
  datatype ChatMessage =
    | UserMessage(text: string)
    | AssistantMessage(text: string)
    | AssistantCall(code: string)                             // the assistant's call of `llm_run_code`
    | FunctionResult(content: ArtifactContent, code: string)  // its result, as the artifact's content

  function RoleOf(m: RequestMessage): Role {
    if m.ChatEntry? then m.message.role else m.role
  }

  /** What the role filter does with one request message. */
  datatype Converted = Dropped | Kept(chat: ChatMessage) | Raises

  /**
    An `ai` or `human` message becomes an assistant or user message with
    escaped text; a `tool` message is dropped. Escaping content that is not
    text raises: `re.sub` on a function call, or a client result that has no
    `content` at all.
  */
  function Convert(m: RequestMessage): (r: Converted)
    ensures r.Dropped? <==> RoleOf(m) == Tool
    ensures r.Raises? <==> RoleOf(m) != Tool && !(m.ChatEntry? && m.message.content.PlainText?)
    ensures r.Kept? ==> (r.chat.AssistantMessage? <==> RoleOf(m) == Ai) && (r.chat.UserMessage? <==> RoleOf(m) == Human)
  {
    if RoleOf(m) == Tool then Dropped
    else if m.ChatEntry? && m.message.content.PlainText? then
      var text := Sanitize(m.message.content.text);
      Kept(if RoleOf(m) == Ai then AssistantMessage(text) else UserMessage(text))
    else Raises
  }

  /** The chat built from the first `n` request messages; `None` once one raised. */
  function ChatHistory(messages: seq<RequestMessage>, n: nat): (r: Option<seq<ChatMessage>>)
    requires n <= |messages|
    ensures r.Some? ==> |r.value| == Spoken(messages, n)
  {
    if n == 0 then Some([])
    else match ChatHistory(messages, n - 1)
      case None => None
      case Some(chat) =>
        match Convert(messages[n - 1])
        case Dropped => Some(chat)
        case Kept(c) => Some(chat + [c])
        case Raises => None
  }

  lemma {:induction false} ChatFailureStays(messages: seq<RequestMessage>, m: nat, n: nat)
    requires m <= n <= |messages|
    requires ChatHistory(messages, m).None?
    ensures ChatHistory(messages, n).None?
    decreases n - m
  {
    if m < n {
      ChatFailureStays(messages, m + 1, n);
    }
  }

  /** The role filter at the head of `query`, with its loop over the messages. */
  method BuildChat(messages: seq<RequestMessage>) returns (r: Option<seq<ChatMessage>>)
    ensures r == ChatHistory(messages, |messages|)
  {
    var chat: seq<ChatMessage> := [];
    for i := 0 to |messages|
      invariant ChatHistory(messages, i) == Some(chat)
    {
      var message := messages[i];
      var role := RoleOf(message);
      if role == Ai || role == Human {
        if !(message.ChatEntry? && message.message.content.PlainText?) {
          ChatFailureStays(messages, i + 1, |messages|);
          return None;
        }
        var text := Sanitize(message.message.content.text);
        if role == Ai {
          chat := chat + [AssistantMessage(text)];
        } else {
          chat := chat + [UserMessage(text)];
        }
      }
    }
    return Some(chat);
  }

  /** How many of the first `n` messages are not tool messages. */
  function Spoken(messages: seq<RequestMessage>, n: nat): (k: nat)
    requires n <= |messages|
    ensures k <= n
  {
    if n == 0 then 0 else Spoken(messages, n - 1) + (if RoleOf(messages[n - 1]) == Tool then 0 else 1)
  }

  /** The chat is built exactly when every `ai` and `human` message holds text. */
  lemma {:induction false} ChatHistorySucceeds(messages: seq<RequestMessage>, n: nat)
    requires n <= |messages|
    ensures ChatHistory(messages, n).Some? <==> forall i :: 0 <= i < n ==> !Convert(messages[i]).Raises?
  {
    if n > 0 {
      ChatHistorySucceeds(messages, n - 1);
    }
  }

  /**
    The chat holds one message per `ai` or `human` message, in order: the
    message of request entry `j` sits at the number of non-tool entries
    before it.
  */
  lemma {:induction false} ChatHistoryOrder(messages: seq<RequestMessage>, n: nat)
    requires n <= |messages| && ChatHistory(messages, n).Some?
    ensures var chat := ChatHistory(messages, n).value;
            && |chat| == Spoken(messages, n)
            && forall j {:trigger Convert(messages[j])} :: 0 <= j < n && RoleOf(messages[j]) != Tool ==>
                 Spoken(messages, j) < |chat| && Convert(messages[j]) == Kept(chat[Spoken(messages, j)])
  {
    if n > 0 {
      assert ChatHistory(messages, n - 1).Some?;
      ChatHistoryOrder(messages, n - 1);
      var chat := ChatHistory(messages, n - 1).value;
      var whole := ChatHistory(messages, n).value;
      var last := messages[n - 1];
      if RoleOf(last) == Tool {
        assert whole == chat;
      } else {
        assert Convert(last).Kept? && whole == chat + [Convert(last).chat];
      }
      forall j | 0 <= j < n - 1 && RoleOf(messages[j]) != Tool
        ensures Spoken(messages, j) < |chat| && Convert(messages[j]) == Kept(chat[Spoken(messages, j)])
      {
        assert Convert(messages[j]).Kept?;
      }
      KeptInOrder(messages, n, chat, whole);
    }
  }

  /** One more request entry keeps the earlier entries' messages where they were. */
  lemma KeptInOrder(messages: seq<RequestMessage>, n: nat, chat: seq<ChatMessage>, whole: seq<ChatMessage>)
    requires 0 < n <= |messages| && |chat| == Spoken(messages, n - 1)
    requires forall j {:trigger Convert(messages[j])} :: 0 <= j < n - 1 && RoleOf(messages[j]) != Tool ==>
               Spoken(messages, j) < |chat| && Convert(messages[j]) == Kept(chat[Spoken(messages, j)])
    requires RoleOf(messages[n - 1]) == Tool ==> whole == chat
    requires RoleOf(messages[n - 1]) != Tool ==> Convert(messages[n - 1]).Kept? && whole == chat + [Convert(messages[n - 1]).chat]
    ensures |whole| == Spoken(messages, n)
    ensures forall j {:trigger Convert(messages[j])} :: 0 <= j < n && RoleOf(messages[j]) != Tool ==>
              Spoken(messages, j) < |whole| && Convert(messages[j]) == Kept(whole[Spoken(messages, j)])
  {
    forall j | 0 <= j < n && RoleOf(messages[j]) != Tool
      ensures Spoken(messages, j) < |whole| && Convert(messages[j]) == Kept(whole[Spoken(messages, j)])
    {
      if j < n - 1 {
        SpokenMonotone(messages, j + 1, n - 1);
        assert whole[Spoken(messages, j)] == chat[Spoken(messages, j)];
      } else {
        assert Spoken(messages, j) == |chat|;
      }
    }
  }

  lemma {:induction false} SpokenMonotone(messages: seq<RequestMessage>, m: nat, n: nat)
    requires m <= n <= |messages|
    ensures Spoken(messages, m) <= Spoken(messages, n)
    decreases n - m
  {
    if m < n {
      SpokenMonotone(messages, m, n - 1);
    }
  }

  /** A kept message carries its text escaped: no lone brace, and the same text once braces are ignored. */
  lemma ConvertEscapes(m: RequestMessage)
    requires Convert(m).Kept?
    ensures var t := Convert(m).chat.text;
            && (forall i :: 0 <= i < |t| ==> !LoneAt(t, i, '{') && !LoneAt(t, i, '}'))
            && Unbraced(t) == Unbraced(m.message.content.text)
  {
    SanitizeLeavesNoLoneBrace(m.message.content.text);
    SanitizeKeepsText(m.message.content.text);
  }

  // ---------------------------------------------------------------------------
  // query: llm_run_code

  /**
    `llm_run_code`: a fresh worker gets the code and then the shutdown
    signal. The host waits on the output queue, so when the worker dies
    without answering it waits for ever (`None`).
  */
  function LlmRunCode(py: Interpreter.Python, helpers: string, code: string): (r: Option<string>)
    ensures r.Some? ==> Interpreter.Worker(py, helpers, [Some(code), None]).1 == Interpreter.Stopped
  {
    var (outs, end) := Interpreter.Worker(py, helpers, [Some(code), None]);
    if end == Interpreter.Stopped && |outs| > 0 then Some(outs[0]) else None
  }

  /** The host gets an answer exactly when the worker reached the shutdown signal, and it is the only one. */
  lemma LlmRunCodeAnswers(py: Interpreter.Python, helpers: string, code: string)
    ensures var (outs, end) := Interpreter.Worker(py, helpers, [Some(code), None]);
            && end != Interpreter.Waiting
            && (LlmRunCode(py, helpers, code).Some? <==> end == Interpreter.Stopped)
            && (end == Interpreter.Stopped ==> outs == [LlmRunCode(py, helpers, code).value])
  {
    var inputs := [Some(code), None];
    assert Interpreter.FirstNone(inputs[1..]) == 0;
    if !py.execute([], helpers).Exited? {
      var s := Interpreter.RunSpec(py, Interpreter.ConsoleState("", [], "", ""), helpers);
      Interpreter.OneAnswerPerRequest(Interpreter.Responder(py), s, inputs);
    }
  }

  // ---------------------------------------------------------------------------
  // query: execution_loop

  const MaxCalls: nat := 10

  /** What the LLM answers: streamed text, or a call of `llm_run_code` with the code to run. */
  datatype LlmResult = StreamedText(chunks: seq<string>) | CallCode(code: string)

  /** What the loop yields, before it is dumped as a server-sent event. */
  datatype Emitted = RunningCode(code: string) | CompletedCode(artifact: ClientArtifact) | Chunk(delta: string)

  datatype LoopEnd =
    | Streamed(chunks: seq<string>)  // the LLM answered with text and the loop broke
    | BudgetSpent                    // every one of the `MAX_CALLS` rounds ran code
    | CallFailed(error: CallError)   // `handle_function_call` raised: the stream stops
    | WorkerHung                     // the worker died: `llm_run_code` never returns
    | NoContext                      // `handled_context` was never bound: the first round raises

  /**
    The loop's foreign parts: the LLM with the context prompt bound (given
    the call number and the chat), `llm_run_code`, `json.loads`, and the
    `uuid4()`s of the artifact built in a given call.
  */
  datatype LoopEnv = LoopEnv(
    llm: (nat, seq<ChatMessage>) -> LlmResult,
    run: string -> Option<string>,
    decode: string -> Option<Json>,
    ids: nat -> ArtifactIds)

  /** What one round does: go on with more events and a longer chat, or stop. */
  datatype Turn = Continue(events: seq<Emitted>, chat: seq<ChatMessage>) | Stop(events: seq<Emitted>, end: LoopEnd)

  function Chunks(chunks: seq<string>): seq<Emitted> {
    seq(|chunks|, i requires 0 <= i < |chunks| => Chunk(chunks[i]))
  }

  /** The two messages a code round appends to the chat. */
  function CallMessages(a: ClientArtifact): seq<ChatMessage> {
    [AssistantCall(a.description), FunctionResult(a.content, a.description)]
  }

  /**
    What any round does: a round that goes on yielded "Running code" and
    "Completed code execution" for a valid artifact describing that code, and
    appended the call and the artifact's content to the chat; a round that
    stops streamed the text, or announced code it could not complete.
  */
  predicate TurnShape(chat: seq<ChatMessage>, t: Turn) {
    match t
    case Continue(events, next) =>
      && |events| == 2 && events[1].CompletedCode?
      && events[0] == RunningCode(events[1].artifact.description)
      && WellFormed(events[1].artifact)
      && next == chat + CallMessages(events[1].artifact)
    case Stop(events, end) => Finale(events, end) && end != BudgetSpent
  }

  /** What the round that ended the loop yielded. */
  predicate Finale(events: seq<Emitted>, end: LoopEnd) {
    match end
    case Streamed(chunks) => events == Chunks(chunks)
    case BudgetSpent => events == []
    case CallFailed(_) => |events| == 1 && events[0].RunningCode?
    case WorkerHung => |events| == 1 && events[0].RunningCode?
    case NoContext => false
  }

  /**
    One round of `execution_loop`, the `call`-th LLM call: text is streamed
    and ends the loop; code is announced, run and turned into an artifact,
    which is announced and appended to the chat with the call.
  */
  function TakeTurn(env: LoopEnv, chat: seq<ChatMessage>, call: nat): (r: Turn)
    ensures TurnShape(chat, r)
  {
    match env.llm(call, chat)
    case StreamedText(chunks) => Stop(Chunks(chunks), Streamed(chunks))
    case CallCode(code) =>
      match env.run(code)
      case None => Stop([RunningCode(code)], WorkerHung)
      case Some(output) =>
        match HandleFunctionCall(code, output, env.decode, env.ids(call))
        case Failure(e) => Stop([RunningCode(code)], CallFailed(e))
        case Success(a) => Continue([RunningCode(code), CompletedCode(a)], chat + CallMessages(a))
  }

  type Stepper = (seq<ChatMessage>, nat) -> Turn

  function StepperOf(env: LoopEnv): Stepper {
    (chat: seq<ChatMessage>, call: nat) => TakeTurn(env, chat, call)
  }

  /** Every round of a stepper has the shape of a loop round. */
  ghost predicate Sound(step: Stepper) {
    forall chat, call :: TurnShape(chat, step(chat, call))
  }

  lemma StepperSound(env: LoopEnv)
    ensures Sound(StepperOf(env))
  {
    forall chat, call
      ensures TurnShape(chat, StepperOf(env)(chat, call))
    {
      assert StepperOf(env)(chat, call) == TakeTurn(env, chat, call);
    }
  }

  /** Everything the loop yields, the chat it leaves, how it ends and how many LLM calls it made. */
  datatype LoopRun = LoopRun(events: seq<Emitted>, chat: seq<ChatMessage>, end: LoopEnd, calls: nat)

  /** The rounds from the `count`-th call on. */
  function Rounds(step: Stepper, chat: seq<ChatMessage>, count: nat): (r: LoopRun)
    ensures count <= MaxCalls ==> r.calls <= MaxCalls - count
    ensures count < MaxCalls ==> r.calls >= 1
    decreases MaxCalls - count
  {
    if count >= MaxCalls then LoopRun([], chat, BudgetSpent, 0)
    else match step(chat, count + 1)
      case Stop(events, end) => LoopRun(events, chat, end, 1)
      case Continue(events, next) =>
        var rest := Rounds(step, next, count + 1);
        LoopRun(events + rest.events, rest.chat, rest.end, 1 + rest.calls)
  }

  /** `events` yielded so far, followed by the rounds still to come. */
  function Yielded(events: seq<Emitted>, rest: LoopRun): LoopRun {
    LoopRun(events + rest.events, rest.chat, rest.end, rest.calls)
  }

  function Loop(env: LoopEnv, chat: seq<ChatMessage>): (r: LoopRun)
    ensures 1 <= r.calls <= MaxCalls
  {
    Rounds(StepperOf(env), chat, 0)
  }

  lemma RoundsStep(step: Stepper, chat: seq<ChatMessage>, count: nat, events: seq<Emitted>, next: seq<ChatMessage>)
    requires count < MaxCalls && step(chat, count + 1) == Continue(events, next)
    ensures var rest := Rounds(step, next, count + 1);
            Rounds(step, chat, count) == LoopRun(events + rest.events, rest.chat, rest.end, 1 + rest.calls)
  {
  }

  lemma RoundsStop(step: Stepper, chat: seq<ChatMessage>, count: nat, events: seq<Emitted>, end: LoopEnd)
    requires count < MaxCalls && step(chat, count + 1) == Stop(events, end)
    ensures Rounds(step, chat, count) == LoopRun(events, chat, end, 1)
  {
  }

  /** The `while count < MAX_CALLS` loop of `execution_loop`, whose body is one round of `step`. */
  method RunLoop(step: Stepper, chat0: seq<ChatMessage>)
    returns (events: seq<Emitted>, chat: seq<ChatMessage>, end: LoopEnd, count: nat)
    ensures var r := Rounds(step, chat0, 0);
            events == r.events && chat == r.chat && end == r.end && count == r.calls
  {
    ghost var all := Rounds(step, chat0, 0);
    ghost var rest := all;
    events, chat, count := [], chat0, 0;
    while count < MaxCalls
      invariant count <= MaxCalls
      invariant rest == Rounds(step, chat, count)
      invariant all.events == events + rest.events && all.chat == rest.chat
      invariant all.end == rest.end && all.calls == count + rest.calls
      decreases MaxCalls - count
    {
      var turn := step(chat, count + 1);
      if turn.Stop? {
        RoundsStop(step, chat, count, turn.events, turn.end);
        return events + turn.events, chat, turn.end, count + 1;
      }
      RoundsStep(step, chat, count, turn.events, turn.chat);
      rest := Rounds(step, turn.chat, count + 1);
      events, chat, count := events + turn.events, turn.chat, count + 1;
    }
    end := BudgetSpent;
  }

  /** `execution_loop`: the loop, each of whose rounds is `TakeTurn`. */
  method ExecutionLoop(env: LoopEnv, chat0: seq<ChatMessage>)
    returns (events: seq<Emitted>, chat: seq<ChatMessage>, end: LoopEnd, count: nat)
    ensures LoopRun(events, chat, end, count) == Loop(env, chat0)
  {
    events, chat, end, count := RunLoop(StepperOf(env), chat0);
  }

  /**
    `k` code rounds: each yielded "Running code" for the code, then
    "Completed code execution" with a valid artifact describing that code,
    and appended the call and the artifact's content to the chat.
  */
  predicate Transcript(events: seq<Emitted>, added: seq<ChatMessage>, k: nat) {
    if k == 0 then events == [] && added == []
    else && |events| >= 2 && |added| >= 2
         && events[1].CompletedCode?
         && events[0] == RunningCode(events[1].artifact.description)
         && WellFormed(events[1].artifact)
         && added[..2] == CallMessages(events[1].artifact)
         && Transcript(events[2..], added[2..], k - 1)
  }

  /** The rounds of a run that ran code to completion: all but a final round that stopped the loop. */
  function CodeRounds(r: LoopRun): int {
    if r.end == BudgetSpent then r.calls else r.calls - 1
  }

  /** The loop makes at most `MAX_CALLS` LLM calls, and all of them when it runs out of budget. */
  lemma {:induction false} RoundsCalls(step: Stepper, chat: seq<ChatMessage>, count: nat)
    requires count <= MaxCalls && Sound(step)
    ensures var r := Rounds(step, chat, count);
            && r.calls <= MaxCalls - count
            && (r.end == BudgetSpent ==> r.calls == MaxCalls - count)
            && (r.end != BudgetSpent ==> r.calls >= 1)
            && r.end != NoContext
    decreases MaxCalls - count
  {
    if count < MaxCalls {
      var turn := step(chat, count + 1);
      assert TurnShape(chat, turn);
      if turn.Continue? {
        RoundsCalls(step, turn.chat, count + 1);
      }
    }
  }

  /** A code round's two events and two messages in front of `k` more rounds make `k + 1` rounds. */
  lemma TranscriptCons(pair: seq<Emitted>, events: seq<Emitted>, added: seq<ChatMessage>, k: nat)
    requires |pair| == 2 && pair[1].CompletedCode? && pair[0] == RunningCode(pair[1].artifact.description)
    requires WellFormed(pair[1].artifact)
    requires Transcript(events, added, k)
    ensures Transcript(pair + events, CallMessages(pair[1].artifact) + added, k + 1)
  {
    var msgs := CallMessages(pair[1].artifact);
    assert (pair + events)[2..] == events;
    assert (msgs + added)[2..] == added;
    assert (msgs + added)[..2] == msgs;
  }

  /**
    A run from `chat` yields the code rounds' status pairs followed by the
    final round's events, and grows the chat by exactly the two messages of
    each code round.
  */
  predicate RunTranscript(chat: seq<ChatMessage>, r: LoopRun) {
    var k := CodeRounds(r);
    && 0 <= 2 * k <= |r.events| && |chat| <= |r.chat| && r.chat[..|chat|] == chat
    && Transcript(r.events[..2 * k], r.chat[|chat|..], k)
    && Finale(r.events[2 * k..], r.end)
  }

  lemma ContinueTranscript(chat: seq<ChatMessage>, turn: Turn, rest: LoopRun)
    requires turn.Continue? && TurnShape(chat, turn)
    requires RunTranscript(turn.chat, rest)
    ensures RunTranscript(chat, LoopRun(turn.events + rest.events, rest.chat, rest.end, 1 + rest.calls))
  {
    var r := LoopRun(turn.events + rest.events, rest.chat, rest.end, 1 + rest.calls);
    var k := CodeRounds(rest);
    var msgs := CallMessages(turn.events[1].artifact);
    var added := rest.chat[|turn.chat|..];
    assert CodeRounds(r) == k + 1;
    assert r.events[..2 * (k + 1)] == turn.events + rest.events[..2 * k];
    assert r.events[2 * (k + 1)..] == rest.events[2 * k..];
    assert r.chat == chat + msgs + added by {
      assert rest.chat == rest.chat[..|turn.chat|] + added;
    }
    assert r.chat[|chat|..] == msgs + added;
    TranscriptCons(turn.events, rest.events[..2 * k], added, k);
  }

  lemma {:induction false} RoundsTranscript(step: Stepper, chat: seq<ChatMessage>, count: nat)
    requires count <= MaxCalls && Sound(step)
    ensures RunTranscript(chat, Rounds(step, chat, count))
    decreases MaxCalls - count
  {
    var r := Rounds(step, chat, count);
    if count < MaxCalls {
      var turn := step(chat, count + 1);
      assert TurnShape(chat, turn);
      if turn.Stop? {
        RoundsStop(step, chat, count, turn.events, turn.end);
        assert r.chat[|chat|..] == [];
      } else {
        RoundsStep(step, chat, count, turn.events, turn.chat);
        RoundsTranscript(step, turn.chat, count + 1);
        ContinueTranscript(chat, turn, Rounds(step, turn.chat, count + 1));
      }
    } else {
      assert r.chat[|chat|..] == [];
    }
  }

  lemma {:induction false} TranscriptHasNoChunks(events: seq<Emitted>, added: seq<ChatMessage>, k: nat)
    requires Transcript(events, added, k)
    ensures |events| == 2 * k && |added| == 2 * k
    ensures forall i :: 0 <= i < |events| ==> !events[i].Chunk?
  {
    if k > 0 {
      TranscriptHasNoChunks(events[2..], added[2..], k - 1);
      assert events == events[..2] + events[2..];
      assert added == added[..2] + added[2..];
    }
  }

  /** A run that spends the whole budget made ten LLM calls, yielded twenty status updates and streamed nothing. */
  lemma BudgetSpentRun(step: Stepper, chat: seq<ChatMessage>)
    requires Sound(step) && Rounds(step, chat, 0).end == BudgetSpent
    ensures var r := Rounds(step, chat, 0);
            && r.calls == MaxCalls && |r.events| == 2 * MaxCalls && |r.chat| == |chat| + 2 * MaxCalls
            && forall i :: 0 <= i < |r.events| ==> !r.events[i].Chunk?
  {
    RoundsCalls(step, chat, 0);
    RoundsTranscript(step, chat, 0);
    var r := Rounds(step, chat, 0);
    TranscriptHasNoChunks(r.events[..2 * MaxCalls], r.chat[|chat|..], MaxCalls);
    assert r.events == r.events[..2 * MaxCalls];
  }

  /** A run that streamed text ends with exactly the chunks the LLM streamed, after its code rounds' statuses. */
  lemma StreamedRun(step: Stepper, chat: seq<ChatMessage>, chunks: seq<string>)
    requires Sound(step) && Rounds(step, chat, 0).end == Streamed(chunks)
    ensures var r := Rounds(step, chat, 0);
            && 1 <= r.calls <= MaxCalls
            && |r.events| == 2 * (r.calls - 1) + |chunks|
            && (forall i :: 0 <= i < 2 * (r.calls - 1) ==> !r.events[i].Chunk?)
            && r.events[2 * (r.calls - 1)..] == Chunks(chunks)
  {
    RoundsCalls(step, chat, 0);
    RoundsTranscript(step, chat, 0);
    var r := Rounds(step, chat, 0);
    var k := r.calls - 1;
    assert CodeRounds(r) == k;
    assert Finale(r.events[2 * k..], Streamed(chunks));
    TranscriptHasNoChunks(r.events[..2 * k], r.chat[|chat|..], k);
    forall i | 0 <= i < 2 * k
      ensures !r.events[i].Chunk?
    {
      assert r.events[i] == r.events[..2 * k][i];
    }
  }

  // ---------------------------------------------------------------------------
  // query: the response

  const RunningCodeMessage: string := "Running code"
  const CompletedCodeMessage: string := "Completed code execution"

  /** The event dict a yielded value is dumped as. */
  function EmittedSse(e: Emitted): (r: SseEvent)
    ensures r.event == if e.Chunk? then MessageChunkEvent else StatusUpdateEvent
    ensures e.Chunk? ==> Lookup(r.data, "delta") == Some(JStr(e.delta))
    ensures e.RunningCode? ==> Lookup(r.data, "message") == Some(JStr(RunningCodeMessage))
                               && Keys(r.data) == ["eventType", "message", "group", "details"]
    ensures e.CompletedCode? ==> Lookup(r.data, "message") == Some(JStr(CompletedCodeMessage))
                                 && Keys(r.data) == ["eventType", "message", "group", "artifacts"]
  {
    match e
    case RunningCode(code) =>
      StatusUpdateSse(StatusUpdateData(INFO, RunningCodeMessage, Some([map["code" := SStr(code)]]), None))
    case CompletedCode(a) =>
      StatusUpdateSse(StatusUpdateData(INFO, CompletedCodeMessage, None, Some([a])))
    case Chunk(delta) => ChunkSse(delta)
  }

  /** The events as the response streams them. */
  function Dumped(events: seq<Emitted>): seq<SseEvent> {
    seq(|events|, i requires 0 <= i < |events| => EmittedSse(events[i]))
  }

  datatype QueryError =
    | EmptyMessages      // the request validator rejected the message list
    | MessageNotText     // escaping a chat message raised
    | ContextNotLoaded   // building a dataframe from the context raised

  /** The request fails before streaming, or streams these events and ends so. */
  datatype QueryOutcome = Rejected(reason: QueryError) | Streaming(events: seq<SseEvent>, end: LoopEnd)

  /**
    The services `query` uses: the LLM, the interpreter a worker starts
    with (its globals are the loaded dataframes), the helper code a worker
    runs first, `json.loads`, the artifacts' `uuid4()`s and what loading
    context needs.
  */
  datatype Services = Services(
    llm: (nat, seq<ChatMessage>, string) -> LlmResult,
    python: map<string, Frame> -> Interpreter.Python,
    helpers: string,
    decode: string -> Option<Json>,
    ids: nat -> ArtifactIds,
    context: ContextEnv)

  function LoopEnvOf(svc: Services, h: HandledContext): LoopEnv {
    LoopEnv((call: nat, chat: seq<ChatMessage>) => svc.llm(call, chat, PromptText(h.sections)),
            code => LlmRunCode(svc.python(h.loaded), svc.helpers, code),
            svc.decode, svc.ids)
  }

  /** The stream for a built chat and a context binding. */
  function Respond(chat: seq<ChatMessage>, binding: ContextBinding, svc: Services): (r: QueryOutcome)
    ensures r.Rejected? <==> binding.LoadRaised?
    ensures binding.Unbound? ==> r == Streaming([], NoContext)
  {
    match binding
    case Unbound => Streaming([], NoContext)
    case LoadRaised => Rejected(ContextNotLoaded)
    case Bound(h) =>
      var r := Loop(LoopEnvOf(svc, h), chat);
      Streaming(Dumped(r.events), r.end)
  }

  /** `query`, once the context is bound (or not). */
  function RequestOutcome(messages: seq<RequestMessage>, binding: ContextBinding, svc: Services): (r: QueryOutcome)
    ensures r == Rejected(EmptyMessages) <==> messages == []
    ensures r == Rejected(MessageNotText) <==>
              messages != [] && exists i :: 0 <= i < |messages| && Convert(messages[i]).Raises?
    ensures r == Rejected(ContextNotLoaded) <==>
              messages != [] && ChatHistory(messages, |messages|).Some? && binding.LoadRaised?
  {
    ChatHistorySucceeds(messages, |messages|);
    if messages == [] then Rejected(EmptyMessages)
    else match ChatHistory(messages, |messages|)
      case None => Rejected(MessageNotText)
      case Some(chat) => Respond(chat, binding, svc)
  }

  /** `query` as written: without context the stream fails on its first round. */
  function QueryAsWritten(messages: seq<RequestMessage>, context: Option<ContextArg>, svc: Services): QueryOutcome {
    RequestOutcome(messages, BindContextAsWritten(context, svc.context), svc)
  }

  /** `query`, with a request without context served with the empty one. */
  function Query(messages: seq<RequestMessage>, context: Option<ContextArg>, svc: Services): QueryOutcome {
    RequestOutcome(messages, BindContext(context, svc.context), svc)
  }

  /** With its context bound, the loop never fails for want of it. */
  lemma BoundLoopHasContext(chat: seq<ChatMessage>, h: HandledContext, svc: Services)
    ensures Respond(chat, Bound(h), svc).end != NoContext
  {
    StepperSound(LoopEnvOf(svc, h));
    RoundsCalls(StepperOf(LoopEnvOf(svc, h)), chat, 0);
  }

  /** Once corrected, a stream never fails for want of context. */
  lemma QueryAlwaysHasContext(messages: seq<RequestMessage>, context: Option<ContextArg>, svc: Services)
    ensures Query(messages, context, svc).Streaming? ==> Query(messages, context, svc).end != NoContext
  {
    var binding := BindContext(context, svc.context);
    if messages != [] && ChatHistory(messages, |messages|).Some? && binding.Bound? {
      BoundLoopHasContext(ChatHistory(messages, |messages|).value, binding.handled, svc);
    }
  }

  /** Wherever the request as written had its context bound, the corrected one answers the same. */
  lemma QueryAgreesWithContext(messages: seq<RequestMessage>, context: Option<ContextArg>, svc: Services)
    requires BindContextAsWritten(context, svc.context) != Unbound
    ensures Query(messages, context, svc) == QueryAsWritten(messages, context, svc)
  {
  }

  /** Corrected, a valid request without context runs the loop with an empty prompt and no dataframes. */
  lemma RequestWithoutContext(messages: seq<RequestMessage>, svc: Services)
    requires messages != [] && ChatHistory(messages, |messages|).Some?
    ensures Query(messages, None, svc) == Respond(ChatHistory(messages, |messages|).value, Bound(HandledContext([], map[])), svc)
  {
    assert BindContext(None, svc.context) == Bound(HandledContext([], map[]));
  }
}

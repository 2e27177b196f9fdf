/** The prompt-set viewer of a video entry: one tab per prompt set, the first
    one active, and the active set's fields shown as code blocks (objects
    and arrays) or text blocks (strings) under titles made from their keys;
    a text block offers a copy button for two titles. */
module PromptSetViewer {

  import opened Js
  import opened Text

  // -------------------------------------------------------------- titles

  /** `key.replace(/_/g, ' ')`. */
  function Underscores(s: string): (t: string)
    ensures |t| == |s| && '_' !in t
    ensures forall i :: 0 <= i < |s| ==> t[i] == if s[i] == '_' then ' ' else s[i]
  {
    seq(|s|, i requires 0 <= i < |s| => if s[i] == '_' then ' ' else s[i])
  }

  /** `.replace(/ en$/, ' (English)')`. */
  function EnSuffix(s: string): string {
    if |s| >= 3 && s[|s| - 3..] == " en" then s[..|s| - 3] + " (English)" else s
  }

  /** A character `\w` matches. */
  predicate IsWordChar(c: char) {
    'a' <= c <= 'z' || 'A' <= c <= 'Z' || '0' <= c <= '9' || c == '_'
  }

  /** `toUpperCase` of a word character. */
  function Upper(c: char): (u: char)
    ensures IsWordChar(u) == IsWordChar(c)
    ensures u != c ==> 'a' <= c <= 'z'
    ensures !('a' <= u <= 'z')
  {
    if 'a' <= c <= 'z' then (c - 'a' + 'A') as char else c
  }

  /** Whether position `i` of `s` starts a word (`\b\w`). */
  predicate WordStart(s: string, i: nat)
    requires i < |s|
  {
    IsWordChar(s[i]) && (i == 0 || !IsWordChar(s[i - 1]))
  }

  /** `.replace(/\b\w/g, l => l.toUpperCase())`: every word character
      that starts a word is upper-cased, and nothing else changes. */
  function Capitalize(s: string): (t: string)
    ensures |t| == |s|
    ensures forall i :: 0 <= i < |s| ==> t[i] == if WordStart(s, i) then Upper(s[i]) else s[i]
  {
    seq(|s|, i requires 0 <= i < |s| => if WordStart(s, i) then Upper(s[i]) else s[i])
  }

  /** `formatTitle`. */
  function FormatTitle(key: string): string {
    Capitalize(EnSuffix(Underscores(key)))
  }

  /** A title has no underscores, never ends in " en", and every word in it
      starts with a capital. */
  lemma TitleShape(key: string)
    ensures '_' !in FormatTitle(key)
    ensures !(|FormatTitle(key)| >= 3 && FormatTitle(key)[|FormatTitle(key)| - 3..] == " en")
    ensures forall i :: 0 <= i < |FormatTitle(key)| && WordStart(FormatTitle(key), i) ==>
      Upper(FormatTitle(key)[i]) == FormatTitle(key)[i]
  {
    var u := Underscores(key);
    var e := EnSuffix(u);
    var t := Capitalize(e);
    assert '_' !in u;
    assert '_' !in e by {
      if |u| >= 3 && u[|u| - 3..] == " en" {
        assert e == u[..|u| - 3] + " (English)";
        forall i | 0 <= i < |e|
          ensures e[i] != '_'
        {
          if i < |u| - 3 {
            assert e[i] == u[i];
          } else {
            assert e[i] == " (English)"[i - (|u| - 3)];
          }
        }
      }
    }
    assert forall i :: 0 <= i < |t| ==> t[i] != '_';
    var n := |t|;
    if n >= 3 {
      assert t[n - 3..][0] == t[n - 3] && t[n - 3..][1] == t[n - 2];
      if t[n - 3] == ' ' {
        assert e[n - 3] == ' ';
        assert t[n - 2] != 'e';
      }
    }
    forall i | 0 <= i < |t| && WordStart(t, i)
      ensures Upper(t[i]) == t[i]
    {
      assert IsWordChar(e[i]) == IsWordChar(t[i]);
      if i > 0 {
        assert IsWordChar(e[i - 1]) == IsWordChar(t[i - 1]);
      }
    }
  }

  /** Formatting a title again changes nothing. */
  lemma FormatTitleIdempotent(key: string)
    ensures FormatTitle(FormatTitle(key)) == FormatTitle(key)
  {
    var t := FormatTitle(key);
    TitleShape(key);
    assert Underscores(t) == t;
    assert EnSuffix(t) == t;
    var c := Capitalize(t);
    forall i | 0 <= i < |t|
      ensures c[i] == t[i]
    {
    }
  }

  /** The two titles under which a text block offers to copy its text. */
  predicate ShowCopyButton(title: string) {
    title == "Prompt (English)" || title == "Kling Structured Prompt"
  }

  /** The English prompt gets the copy button. */
  lemma PromptEnCopyable()
    ensures FormatTitle("prompt_en") == "Prompt (English)"
    ensures ShowCopyButton(FormatTitle("prompt_en"))
  {
    assert Underscores("prompt_en") == "prompt en";
    PromptEnSuffix();
    PromptEnCapitalized();
  }

  lemma PromptEnSuffix()
    ensures EnSuffix("prompt en") == "prompt (English)"
  {
    var u := "prompt en";
    assert u[|u| - 3..] == " en";
    assert u[..|u| - 3] == "prompt";
  }

  lemma PromptEnCapitalized()
    ensures Capitalize("prompt (English)") == "Prompt (English)"
  {
  }

  /** The structured Kling prompt gets the copy button. */
  lemma KlingCopyable()
    ensures FormatTitle("kling_structured_prompt") == "Kling Structured Prompt"
    ensures ShowCopyButton(FormatTitle("kling_structured_prompt"))
  {
    KlingUnderscores();
    KlingSuffix();
    KlingCapitalized();
  }

  lemma KlingUnderscores()
    ensures Underscores("kling_structured_prompt") == "kling structured prompt"
  {
  }

  lemma KlingSuffix()
    ensures EnSuffix("kling structured prompt") == "kling structured prompt"
  {
    var u := "kling structured prompt";
    assert u[|u| - 3..] != " en";
  }

  lemma KlingCapitalized()
    ensures Capitalize("kling structured prompt") == "Kling Structured Prompt"
  {
  }

  // --------------------------------------------------------------- tabs

  /** `Object.entries(j)`: an object's members, an array's or a string's
      elements under their indices, nothing for a number or a boolean. */
  function Entries(j: Json): (es: seq<(string, Json)>)
    ensures j.JObj? ==> es == j.members
    ensures j.JArr? ==> |es| == |j.items|
    ensures j.JStr? ==> |es| == |j.s|
  {
    match j
    case JObj(members) => members
    case JArr(items) => seq(|items|, i requires 0 <= i < |items| => (NatToString(i), items[i]))
    case JStr(s) => seq(|s|, i requires 0 <= i < |s| => (NatToString(i), JStr([s[i]])))
    case _ => []
  }

  /** The tabs: `Object.keys(promptData.prompts)`, which throws on
      `undefined` or `null`. */
  function Tabs(prompts: Value): (r: Result<seq<string>>)
    ensures r.Ok? <==> !(prompts.None? || prompts == Null)
    ensures r.Ok? ==> r.value == Keys(Entries(prompts.value))
  {
    if prompts.None? || prompts == Null then Throw(TypeErrorMessage) else Ok(Keys(Entries(prompts.value)))
  }

  /** `promptData.prompts[activeTab]` for the initial tab `tabs[0]`. */
  function InitialSet(prompts: Json): Value {
    var tabs := Keys(Entries(prompts));
    if |tabs| == 0 then Lookup(Entries(prompts), "undefined") else Lookup(Entries(prompts), tabs[0])
  }

  /** The first prompt set is the one shown first. */
  lemma FirstSetShown(prompts: Json)
    requires Entries(prompts) != []
    ensures InitialSet(prompts) == Some(Entries(prompts)[0].1)
  {
  }

  // ------------------------------------------------------------- blocks

  /** What a field of the active set renders as. */
  datatype Block =
    | CodeBlock(title: string, code: Json)
    | Detail(title: string, content: string, copyButton: bool)

  /** The value-kind dispatch: objects and arrays as code, strings as text,
      anything else as nothing. */
  function BlockOf(e: (string, Json)): (b: Option<Block>)
    ensures b.Some? <==> e.1.JObj? || e.1.JArr? || e.1.JStr?
    ensures b.Some? ==> b.value.title == FormatTitle(e.0)
    ensures b.Some? && b.value.CodeBlock? ==> b.value.code == e.1
    ensures b.Some? && b.value.Detail? ==>
      e.1 == JStr(b.value.content) && (b.value.copyButton <==> ShowCopyButton(b.value.title))
  {
    match e.1
    case JObj(_) => Some(CodeBlock(FormatTitle(e.0), e.1))
    case JArr(_) => Some(CodeBlock(FormatTitle(e.0), e.1))
    case JStr(s) => Some(Detail(FormatTitle(e.0), s, ShowCopyButton(FormatTitle(e.0))))
    case _ => None
  }

  /** Fields that are shown: not the settings, not the structured object,
      and of a kind that renders. */
  predicate Shown(e: (string, Json)) {
    e.0 != "settings" && e.0 != "prompt_object_v6" && BlockOf(e).Some?
  }

  /** The filter-then-map over the entries. */
  function BlocksOf(es: seq<(string, Json)>): (bs: seq<Block>)
    ensures |bs| <= |es|
  {
    if |es| == 0 then []
    else
      var e := es[0];
      (if e.0 != "settings" && e.0 != "prompt_object_v6" && BlockOf(e).Some? then [BlockOf(e).value] else [])
      + BlocksOf(es[1..])
  }

  /** Number of shown fields: a reference count. */
  function ShownCount(es: seq<(string, Json)>): nat {
    if |es| == 0 then 0 else (if Shown(es[0]) then 1 else 0) + ShownCount(es[1..])
  }

  /** The blocks are exactly the shown fields, in order: one per shown
      field, each rendered from a shown field, and every shown field
      rendered. */
  lemma {:induction false} BlocksAreShownFields(es: seq<(string, Json)>)
    ensures |BlocksOf(es)| == ShownCount(es)
    ensures forall b :: b in BlocksOf(es) ==> exists e :: e in es && Shown(e) && BlockOf(e) == Some(b)
    ensures forall e :: e in es && Shown(e) ==> BlockOf(e).value in BlocksOf(es)
  {
    if es != [] {
      BlocksAreShownFields(es[1..]);
      forall b | b in BlocksOf(es)
        ensures exists e :: e in es && Shown(e) && BlockOf(e) == Some(b)
      {
        if b !in BlocksOf(es[1..]) {
          assert Shown(es[0]) && BlockOf(es[0]) == Some(b);
        } else {
          var e :| e in es[1..] && Shown(e) && BlockOf(e) == Some(b);
          assert e in es;
        }
      }
      forall e | e in es && Shown(e)
        ensures BlockOf(e).value in BlocksOf(es)
      {
        if e != es[0] {
          assert e in es[1..];
        }
      }
    }
  }

  /** The settings and the structured prompt object never render. */
  lemma HiddenKeys(es: seq<(string, Json)>)
    ensures forall e :: e in es && (e.0 == "settings" || e.0 == "prompt_object_v6") ==> !Shown(e)
  {
  }

  /** What the body of the viewer shows for the active set: nothing for a
      falsy set, else the blocks of its entries. */
  function Body(activeSet: Value): seq<Block> {
    if Truthy(activeSet) then BlocksOf(Entries(activeSet.value)) else []
  }

  /** Each code block of an object set shows one of the set's own members,
      and a text block holds that member's string verbatim. */
  lemma BodyOfObject(members: seq<(string, Json)>)
    ensures forall b :: b in Body(Some(JObj(members))) ==>
      exists e :: e in members && Shown(e) && BlockOf(e) == Some(b)
    ensures |Body(Some(JObj(members)))| == ShownCount(members)
  {
    BlocksAreShownFields(members);
  }
}

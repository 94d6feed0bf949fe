/**
 * The prompt renderer `buildPrompt`. The prompt is a fixed sequence of sections,
 * each rendered to text and concatenated: the request with the chunk as JSON, the
 * active rules, the style line, then custom instructions and glossary when given.
 */
module Prompt {
  import opened Json
  import opened Types
  import opened Sequences

  /** The three optional translation rules, in the order the prompt lists them. */
  datatype Rule = PreserveFormatting | PreserveCase | ExcludeNumbers

  function RuleText(r: Rule): string
  {
    match r
    case PreserveFormatting => "Preserve formatting (like HTML, Markdown)."
    case PreserveCase => "Preserve original letter casing."
    case ExcludeNumbers => "Do not translate numbers or strings containing only numbers."
  }

  const Intro := "Translate the JSON values to "
  const RulesHeading := "\n\nTranslation Rules:\n- "
  const RuleSeparator := "\n- "
  const StyleHeading := "\n\nTranslation Style: "
  const SpecialHeading := "\n\nSpecial Instructions: "
  const GlossaryHeading := "\n\nGlossary (term:translation):\n"
  const Instructions := ". Respond with only a valid JSON object containing the translated values, maintaining the original keys. Do not translate the keys.\n\nJSON to translate:\n"

  datatype Section =
    | Request(languageName: string, chunkJson: string)
    | Rules(rules: seq<Rule>)
    | StyleLine(style: Style, tone: Tone, creativity: string)
    | Special(instructions: string)
    | GlossaryText(glossary: string)

  // ---------------------------------------------------------------------------
  // `JSON.stringify(chunk, null, 2)` for a chunk object of strings
  // ---------------------------------------------------------------------------

  function HexDigit(d: nat): char
    requires d < 16
  {
    if d < 10 then ('0' as int + d) as char else ('a' as int + d - 10) as char
  }

  /** One character inside a JSON string literal. */
  function EscapeChar(c: char): string
  {
    if c == '"' then "\\\""
    else if c == '\\' then "\\\\"
    else if c == '\U{8}' then "\\b"
    else if c == '\U{C}' then "\\f"
    else if c == '\n' then "\\n"
    else if c == '\r' then "\\r"
    else if c == '\t' then "\\t"
    else if (c as int) < 0x20 then "\\u00" + [HexDigit(c as int / 16), HexDigit(c as int % 16)]
    else [c]
  }

  function Escape(s: string): string
  {
    if s == [] then [] else EscapeChar(s[0]) + Escape(s[1..])
  }

  function Quote(s: string): string
  {
    "\"" + Escape(s) + "\""
  }

  /** A member's line: the quoted key and the quoted string, indented by two spaces. */
  function MemberLine(f: Field): string
    requires f.value.Str?
  {
    "  " + Quote(f.key) + ": " + Quote(f.value.s)
  }

  /** The members of a non-empty object, one line each, separated by commas. */
  function Members(fields: seq<Field>): string
    requires forall i :: 0 <= i < |fields| ==> fields[i].value.Str?
    requires fields != []
  {
    var line := MemberLine(fields[0]);
    if |fields| == 1 then line else line + ",\n" + Members(fields[1..])
  }

  /** A flat object of strings, pretty-printed with an indent of two. */
  function ChunkJson(fields: seq<Field>): string
    requires forall i :: 0 <= i < |fields| ==> fields[i].value.Str?
  {
    if fields == [] then "{}" else "{\n" + Members(fields) + "\n}"
  }

  /**
   * A quote, a backslash and every control character are escaped, starting with
   * a backslash; every other character stands for itself; and no escape holds a
   * control character.
   */
  lemma EscapeCharEscapes(c: char)
    ensures EscapeChar(c) == [c] <==> c != '"' && c != '\\' && c as int >= 0x20
    ensures EscapeChar(c) != [c] ==> |EscapeChar(c)| >= 2 && EscapeChar(c)[0] == '\\'
    ensures forall k :: 0 <= k < |EscapeChar(c)| ==> EscapeChar(c)[k] as int >= 0x20
  {
  }

  /**
   * The body of a string literal holds no control character, and is the text
   * itself when the text has nothing to escape.
   */
  lemma {:induction false} EscapePrintable(s: string)
    ensures forall k :: 0 <= k < |Escape(s)| ==> Escape(s)[k] as int >= 0x20
    ensures (forall k :: 0 <= k < |s| ==> EscapeChar(s[k]) == [s[k]]) ==> Escape(s) == s
  {
    if s != [] {
      EscapeCharEscapes(s[0]);
      EscapePrintable(s[1..]);
      if forall k :: 0 <= k < |s| ==> EscapeChar(s[k]) == [s[k]] {
        assert forall k :: 0 <= k < |s[1..]| ==> EscapeChar(s[1..][k]) == [s[1..][k]] by {
          forall k | 0 <= k < |s[1..]| ensures EscapeChar(s[1..][k]) == [s[1..][k]] {
            assert s[1..][k] == s[k + 1];
          }
        }
        assert [s[0]] + s[1..] == s;
      }
    }
  }

  /** Every member's line appears in the members' text. */
  lemma {:induction false} MembersHaveLines(fields: seq<Field>)
    requires forall i :: 0 <= i < |fields| ==> fields[i].value.Str?
    requires fields != []
    ensures forall i :: 0 <= i < |fields| ==> Occurs(MemberLine(fields[i]), Members(fields))
  {
    var line := MemberLine(fields[0]);
    if |fields| == 1 {
      assert OccursAt(line, Members(fields), 0);
    } else {
      var rest := Members(fields[1..]);
      assert Members(fields) == line + ",\n" + rest;
      assert OccursAt(line, Members(fields), 0);
      MembersHaveLines(fields[1..]);
      forall i | 1 <= i < |fields| ensures Occurs(MemberLine(fields[i]), Members(fields)) {
        assert fields[1..][i - 1] == fields[i];
        OccursAfter(line + ",\n", MemberLine(fields[i]), rest);
      }
    }
  }

  /**
   * The pretty-printed chunk is one object, braces around it, and every member's
   * line appears in it.
   */
  lemma ChunkJsonHasMembers(fields: seq<Field>)
    requires forall i :: 0 <= i < |fields| ==> fields[i].value.Str?
    ensures var json := ChunkJson(fields); |json| >= 2 && json[0] == '{' && json[|json| - 1] == '}'
    ensures forall i :: 0 <= i < |fields| ==> Occurs(MemberLine(fields[i]), ChunkJson(fields))
  {
    if fields != [] {
      var members := Members(fields);
      MembersHaveLines(fields);
      forall i | 0 <= i < |fields| ensures Occurs(MemberLine(fields[i]), ChunkJson(fields)) {
        OccursAfter("{\n", MemberLine(fields[i]), members);
        OccursBefore(MemberLine(fields[i]), "{\n" + members, "\n}");
      }
    }
  }

  // ---------------------------------------------------------------------------
  // Sections
  // ---------------------------------------------------------------------------

  /** The rules whose flags are set, in the order formatting, case, numbers. */
  function ActiveRules(s: Settings): seq<Rule>
  {
    (if s.preserveFormatting then [PreserveFormatting] else []) +
    (if s.preserveCase then [PreserveCase] else []) +
    (if s.excludeNumbers then [ExcludeNumbers] else [])
  }

  function RuleLines(rules: seq<Rule>): seq<string>
  {
    seq(|rules|, i requires 0 <= i < |rules| => RuleText(rules[i]))
  }

  /** The sections of the prompt; a blank string is as good as absent. */
  function Sections(chunkJson: string, languageName: string, s: Settings): seq<Section>
  {
    [Request(languageName, chunkJson)] + RulesPart(s) + [StyleLine(s.style, s.tone, s.creativity)] +
    SpecialPart(s) + GlossaryPart(s)
  }

  function RulesPart(s: Settings): seq<Section>
  {
    if |ActiveRules(s)| > 0 then [Rules(ActiveRules(s))] else []
  }

  function SpecialPart(s: Settings): seq<Section>
  {
    if s.customInstructions != "" then [Special(s.customInstructions)] else []
  }

  function GlossaryPart(s: Settings): seq<Section>
  {
    if s.glossary != "" then [GlossaryText(s.glossary)] else []
  }

  function Join(lines: seq<string>, sep: string): string
  {
    if lines == [] then ""
    else if |lines| == 1 then lines[0]
    else lines[0] + sep + Join(lines[1..], sep)
  }

  function Render(section: Section): string
  {
    match section
    case Request(name, json) => Intro + name + (Instructions + json + "\n")
    case Rules(rules) => RulesHeading + Join(RuleLines(rules), RuleSeparator)
    case StyleLine(style, tone, creativity) =>
      StyleHeading + StyleName(style) + ", Tone: " + ToneName(tone) + ", Creativity: " + creativity + "."
    case Special(text) => SpecialHeading + text
    case GlossaryText(text) => GlossaryHeading + text
  }

  function Texts(sections: seq<Section>): seq<string>
  {
    seq(|sections|, k requires 0 <= k < |sections| => Render(sections[k]))
  }

  /** `buildPrompt(chunk, languageName, config)`. */
  function BuildPrompt(chunk: seq<Field>, languageName: string, config: Config): string
    requires forall i :: 0 <= i < |chunk| ==> chunk[i].value.Str?
  {
    RenderPrompt(ChunkJson(chunk), languageName, config.settings)
  }

  /** The prompt for a chunk whose JSON text is `chunkJson`. */
  function RenderPrompt(chunkJson: string, languageName: string, s: Settings): string
  {
    Concat(Texts(Sections(chunkJson, languageName, s)))
  }

  // ---------------------------------------------------------------------------
  // Properties
  // ---------------------------------------------------------------------------

  /** Where each kind of section goes in the fixed order. */
  function Rank(section: Section): nat
  {
    match section
    case Request(_, _) => 0
    case Rules(_) => 1
    case StyleLine(_, _, _) => 2
    case Special(_) => 3
    case GlossaryText(_) => 4
  }

  function RuleRank(r: Rule): nat
  {
    match r
    case PreserveFormatting => 0
    case PreserveCase => 1
    case ExcludeNumbers => 2
  }

  /**
   * The rule lines are exactly the rules whose flags are set, each once, in the
   * order formatting, case, numbers.
   */
  lemma RuleLinesSelected(s: Settings)
    ensures PreserveFormatting in ActiveRules(s) <==> s.preserveFormatting
    ensures PreserveCase in ActiveRules(s) <==> s.preserveCase
    ensures ExcludeNumbers in ActiveRules(s) <==> s.excludeNumbers
    ensures forall a, b :: 0 <= a < b < |ActiveRules(s)| ==> RuleRank(ActiveRules(s)[a]) < RuleRank(ActiveRules(s)[b])
  {
  }

  /**
   * The prompt's sections come in the fixed order request, rules, style, custom
   * instructions, glossary, each at most once, opening with the request that
   * names the language.
   */
  lemma PromptSectionOrder(chunkJson: string, languageName: string, s: Settings)
    ensures var secs := Sections(chunkJson, languageName, s);
      && (forall a, b :: 0 <= a < b < |secs| ==> Rank(secs[a]) < Rank(secs[b]))
      && secs[0] == Request(languageName, chunkJson)
  {
    var secs := Sections(chunkJson, languageName, s);
    var req, style := Request(languageName, chunkJson), StyleLine(s.style, s.tone, s.creativity);
    forall a, b | 0 <= a < b < |secs| ensures Rank(secs[a]) < Rank(secs[b]) {
      OrderedParts(req, RulesPart(s), style, SpecialPart(s), GlossaryPart(s), a, b);
    }
  }

  /**
   * The style line is always there; the rules exactly when a flag is set, with
   * the active rules; custom instructions and glossary exactly when non-empty,
   * verbatim, the glossary last.
   */
  lemma PromptSectionContents(chunkJson: string, languageName: string, s: Settings)
    ensures var secs := Sections(chunkJson, languageName, s);
      && StyleLine(s.style, s.tone, s.creativity) in secs
      && (Rules(ActiveRules(s)) in secs <==> (s.preserveFormatting || s.preserveCase || s.excludeNumbers))
      && (forall sec :: sec in secs && sec.Rules? ==> sec.rules == ActiveRules(s))
      && (Special(s.customInstructions) in secs <==> s.customInstructions != "")
      && (forall sec :: sec in secs && sec.Special? ==> sec.instructions == s.customInstructions)
      && (GlossaryText(s.glossary) in secs <==> s.glossary != "")
      && (forall sec :: sec in secs && sec.GlossaryText? ==> sec.glossary == s.glossary)
      && (s.glossary != "" ==> secs[|secs| - 1] == GlossaryText(s.glossary))
  {
    var req, style := Request(languageName, chunkJson), StyleLine(s.style, s.tone, s.creativity);
    var rules, special, glossary := RulesPart(s), SpecialPart(s), GlossaryPart(s);
    var secs := Sections(chunkJson, languageName, s);
    assert secs == [req] + rules + [style] + special + glossary;
    assert secs[|rules| + 1] == style;
    forall sec | sec in secs
      ensures sec == req || sec in rules || sec == style || sec in special || sec in glossary
    {
    }
    RuleLinesSelected(s);
    assert |ActiveRules(s)| > 0 <==> (s.preserveFormatting || s.preserveCase || s.excludeNumbers);
  }

  lemma OrderedParts(req: Section, rules: seq<Section>, style: Section, special: seq<Section>, glossary: seq<Section>, a: nat, b: nat)
    requires Rank(req) == 0 && Rank(style) == 2
    requires |rules| <= 1 && |special| <= 1 && |glossary| <= 1
    requires forall k :: 0 <= k < |rules| ==> Rank(rules[k]) == 1
    requires forall k :: 0 <= k < |special| ==> Rank(special[k]) == 3
    requires forall k :: 0 <= k < |glossary| ==> Rank(glossary[k]) == 4
    requires a < b < |[req] + rules + [style] + special + glossary|
    ensures var secs := [req] + rules + [style] + special + glossary; Rank(secs[a]) < Rank(secs[b])
  {
    var secs := [req] + rules + [style] + special + glossary;
    var r := |rules|;
    assert secs[0] == req && secs[r + 1] == style;
    assert r == 1 ==> secs[1] == rules[0];
    assert |special| == 1 ==> secs[r + 2] == special[0];
    assert |glossary| == 1 ==> secs[|secs| - 1] == glossary[0];
  }

  /** A section's text appears verbatim in the prompt. */
  lemma SectionInPrompt(chunkJson: string, languageName: string, s: Settings, section: Section)
    requires section in Sections(chunkJson, languageName, s)
    ensures Occurs(Render(section), RenderPrompt(chunkJson, languageName, s))
  {
    var secs := Sections(chunkJson, languageName, s);
    var k :| 0 <= k < |secs| && secs[k] == section;
    PieceOccurs(Texts(secs), k);
  }

  /** Whatever the chunk, the prompt opens by naming the target language. */
  lemma PromptNamesLanguage(chunkJson: string, languageName: string, s: Settings)
    ensures OccursAt(Intro + languageName, RenderPrompt(chunkJson, languageName, s), 0)
  {
    var secs := Sections(chunkJson, languageName, s);
    assert secs[0] == Request(languageName, chunkJson);
    FirstPiecePrefix(Texts(secs), Intro + languageName, Instructions + chunkJson + "\n");
  }

  /** Whatever the settings, the chunk's JSON text appears verbatim. */
  lemma PromptHasChunk(chunkJson: string, languageName: string, s: Settings)
    ensures Occurs(chunkJson, RenderPrompt(chunkJson, languageName, s))
  {
    var secs := Sections(chunkJson, languageName, s);
    assert secs[0] == Request(languageName, chunkJson);
    PieceOccurs(Texts(secs), 0);
    OccursInside(Intro + languageName, Instructions, chunkJson, "\n", RenderPrompt(chunkJson, languageName, s));
  }

  /**
   * The prompt for a chunk opens by naming the target language and carries the
   * chunk's JSON text, hence every member's line, verbatim.
   */
  lemma BuildPromptCarriesChunk(chunk: seq<Field>, languageName: string, config: Config)
    requires forall i :: 0 <= i < |chunk| ==> chunk[i].value.Str?
    ensures OccursAt(Intro + languageName, BuildPrompt(chunk, languageName, config), 0)
    ensures Occurs(ChunkJson(chunk), BuildPrompt(chunk, languageName, config))
    ensures forall i :: 0 <= i < |chunk| ==> Occurs(MemberLine(chunk[i]), BuildPrompt(chunk, languageName, config))
  {
    var json, prompt := ChunkJson(chunk), BuildPrompt(chunk, languageName, config);
    PromptNamesLanguage(json, languageName, config.settings);
    PromptHasChunk(json, languageName, config.settings);
    ChunkJsonHasMembers(chunk);
    forall i | 0 <= i < |chunk| ensures Occurs(MemberLine(chunk[i]), prompt) {
      OccursTrans(MemberLine(chunk[i]), json, prompt);
    }
  }

  /** Whatever the chunk, the style, tone and creativity line appears verbatim. */
  lemma PromptHasStyle(chunkJson: string, languageName: string, s: Settings)
    ensures Occurs(Render(StyleLine(s.style, s.tone, s.creativity)), RenderPrompt(chunkJson, languageName, s))
  {
    var secs := Sections(chunkJson, languageName, s);
    assert secs[|RulesPart(s)| + 1] == StyleLine(s.style, s.tone, s.creativity);
    PieceOccurs(Texts(secs), |RulesPart(s)| + 1);
  }

  /** Whatever the chunk, non-empty custom instructions appear verbatim. */
  lemma PromptHasInstructions(chunkJson: string, languageName: string, s: Settings)
    requires s.customInstructions != ""
    ensures Occurs(s.customInstructions, RenderPrompt(chunkJson, languageName, s))
  {
    var secs := Sections(chunkJson, languageName, s);
    assert secs[|RulesPart(s)| + 2] == Special(s.customInstructions);
    PieceOccurs(Texts(secs), |RulesPart(s)| + 2);
    OccursInTail(SpecialHeading, s.customInstructions, RenderPrompt(chunkJson, languageName, s));
  }

  /** Whatever the chunk, a non-empty glossary is the verbatim end of the prompt. */
  lemma PromptEndsWithGlossary(chunkJson: string, languageName: string, s: Settings)
    requires s.glossary != ""
    ensures EndsWith(s.glossary, RenderPrompt(chunkJson, languageName, s))
  {
    var secs := Sections(chunkJson, languageName, s);
    assert secs[|secs| - 1] == GlossaryText(s.glossary);
    LastText(secs, s.glossary);
    LastPieceSuffix(Texts(secs), GlossaryHeading, s.glossary);
  }

  lemma LastText(secs: seq<Section>, glossary: string)
    requires |secs| > 0 && secs[|secs| - 1] == GlossaryText(glossary)
    ensures Texts(secs)[|secs| - 1] == GlossaryHeading + glossary
  {
  }

  lemma OccursInTail(head: string, t: string, p: string)
    requires Occurs(head + t, p)
    ensures Occurs(t, p)
  {
    var at: nat :| OccursAt(head + t, p, at);
    assert p[at + |head|..at + |head| + |t|] == (head + t)[|head|..];
    assert OccursAt(t, p, at + |head|);
  }

  lemma OccursInside(a: string, b: string, t: string, c: string, p: string)
    requires Occurs(a + (b + t + c), p)
    ensures Occurs(t, p)
  {
    var w := a + (b + t + c);
    var at: nat :| OccursAt(w, p, at);
    var off := |a| + |b|;
    assert w[off..off + |t|] == t;
    assert p[at + off..at + off + |t|] == p[at..at + |w|][off..off + |t|];
    assert OccursAt(t, p, at + off);
  }

  lemma OccursTrans(t: string, u: string, p: string)
    requires Occurs(t, u) && Occurs(u, p)
    ensures Occurs(t, p)
  {
    var a: nat :| OccursAt(t, u, a);
    var b: nat :| OccursAt(u, p, b);
    forall m | 0 <= m < |t| ensures p[b + a + m] == t[m] {
      assert t[m] == u[a..a + |t|][m] == u[a + m];
      assert u[a + m] == p[b..b + |u|][a + m] == p[b + a + m];
    }
    assert p[b + a..b + a + |t|] == t;
    assert OccursAt(t, p, b + a);
  }

  lemma OccursAfter(head: string, t: string, s: string)
    requires Occurs(t, s)
    ensures Occurs(t, head + s)
  {
    var at: nat :| OccursAt(t, s, at);
    assert (head + s)[|head| + at..|head| + at + |t|] == s[at..at + |t|];
    assert OccursAt(t, head + s, |head| + at);
  }

  lemma OccursBefore(t: string, s: string, tail: string)
    requires Occurs(t, s)
    ensures Occurs(t, s + tail)
  {
    var at: nat :| OccursAt(t, s, at);
    assert (s + tail)[at..at + |t|] == s[at..at + |t|];
    assert OccursAt(t, s + tail, at);
  }

  /** Each piece of a concatenation occurs in it verbatim. */
  lemma {:induction false} PieceOccurs(texts: seq<string>, k: nat)
    requires k < |texts|
    ensures Occurs(texts[k], Concat(texts))
  {
    ConcatAt(texts, k);
    assert OccursAt(texts[k], Concat(texts), |Concat(texts[..k])|);
  }

  /** A concatenation opens with the opening of its first piece. */
  lemma {:induction false} FirstPiecePrefix(texts: seq<string>, head: string, rest: string)
    requires |texts| > 0 && texts[0] == head + rest
    ensures OccursAt(head, Concat(texts), 0)
  {
    var whole := Concat(texts);
    assert whole == (head + rest) + Concat(texts[1..]);
    assert whole[..|head|] == head;
  }

  /** A concatenation ends with the ending of its last piece. */
  lemma {:induction false} LastPieceSuffix(texts: seq<string>, head: string, tail: string)
    requires |texts| > 0 && texts[|texts| - 1] == head + tail
    ensures EndsWith(tail, Concat(texts))
  {
    var n := |texts| - 1;
    assert texts == texts[..n] + [head + tail];
    ConcatSplit(texts[..n], [head + tail]);
    assert Concat([head + tail]) == head + tail + Concat([]);
  }

  /** `t` occurs verbatim in `s` at position `at`. */
  predicate OccursAt(t: string, s: string, at: nat)
  {
    at + |t| <= |s| && s[at..at + |t|] == t
  }

  /** `s` ends with `t`. */
  predicate EndsWith(t: string, s: string)
  {
    |t| <= |s| && s[|s| - |t|..] == t
  }

  /** `t` occurs verbatim somewhere in `s`. */
  ghost predicate Occurs(t: string, s: string)
  {
    exists at: nat :: OccursAt(t, s, at)
  }
}

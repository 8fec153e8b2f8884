/** WhatsApp message templates: the `{{…}}` placeholders of a template's texts, and the badge
    variant shown for a template's review status. */
module WhatsAppApi {
  import opened Wrappers
  import opened Strings
  import opened Seqs

  datatype TemplateComponent = TemplateComponent(componentType: string, format: Option<string>, text: Option<string>)

  datatype WhatsAppTemplate = WhatsAppTemplate(
    id: string,
    name: string,
    language: string,
    status: string,
    category: string,
    components: seq<TemplateComponent>)

  /** The first position at or after `i` holding `'}'`, or `|s|` when there is none. */
  function CloseFrom(s: string, i: nat): (f: nat)
    requires i <= |s|
    ensures i <= f <= |s|
    ensures f < |s| ==> s[f] == '}'
    ensures '}' !in s[i..f]
    decreases |s| - i
  {
    if i == |s| || s[i] == '}' then i
    else
      var f := CloseFrom(s, i + 1);
      assert s[i..f] == [s[i]] + s[i + 1..f];
      f
  }

  /** `CloseFrom` is the only position with its two properties. */
  lemma {:induction false} CloseFromUnique(s: string, i: nat, f: nat)
    requires i <= f < |s| && s[f] == '}' && '}' !in s[i..f]
    ensures CloseFrom(s, i) == f
    decreases f - i
  {
    if i < f {
      assert s[i] in s[i..f];
      assert s[i + 1..f] == s[i..f][1..];
      CloseFromUnique(s, i + 1, f);
    }
  }

  /** Whether `/\{\{\s*([^}]+?)\s*\}\}/` matches at `p`. Neither `\s` nor `[^}]` matches `'}'`,
      so a match is "{{", at least one character, and "}}" starting at the first `'}'`. */
  predicate MatchesAt(s: string, p: nat) {
    p + 2 <= |s| && s[p] == '{' && s[p + 1] == '{' &&
    var f := CloseFrom(s, p + 2);
    p + 2 < f && f + 1 < |s| && s[f + 1] == '}'
  }

  /** Where the match at `p` ends: the regex's `lastIndex` after it. */
  function MatchEnd(s: string, p: nat): (e: nat)
    requires MatchesAt(s, p)
    ensures p + 5 <= e <= |s|
  {
    CloseFrom(s, p + 2) + 2
  }

  /** `match[1].trim()`: the lazy group between the optional blanks is the text between the
      braces without its surrounding whitespace. */
  function MatchKey(s: string, p: nat): (k: string)
    requires MatchesAt(s, p)
    ensures '}' !in k
  {
    var group := s[p + 2..CloseFrom(s, p + 2)];
    TrimKeepsChars(group);
    Trim(group)
  }

  /** `regex.exec` from `lastIndex == from`: the first position at or after `from` where the
      placeholder regex matches. */
  function NextMatch(s: string, from: nat): (m: Option<nat>)
    ensures m.Some? ==> from <= m.value && MatchesAt(s, m.value)
    ensures forall q :: from <= q < (if m.Some? then m.value else |s|) ==> !MatchesAt(s, q)
    decreases |s| - from
  {
    if from >= |s| then None
    else if MatchesAt(s, from) then Some(from)
    else NextMatch(s, from + 1)
  }

  /** What a successful `exec` reports: where the match starts, the `lastIndex` after it, and
      the trimmed key of its group. */
  datatype RegexMatch = RegexMatch(index: nat, lastIndex: nat, key: string)

  /** `placeholderRegex.exec(s)` with `lastIndex == from`. */
  function Exec(s: string, from: nat): (m: Option<RegexMatch>)
    ensures m.Some? ==> from <= m.value.index && m.value.index + 5 <= m.value.lastIndex <= |s|
  {
    match NextMatch(s, from)
    case None => None
    case Some(p) => Some(RegexMatch(p, MatchEnd(s, p), MatchKey(s, p)))
  }

  function Token(key: string): string {
    "{{" + key + "}}"
  }

  /** A placeholder token: `{{k}}` with `k` free of `'}'` and of surrounding whitespace. */
  predicate IsPlaceholderToken(t: string) {
    |t| >= 4 && t[..2] == "{{" && t[|t| - 2..] == "}}" &&
    '}' !in t[2..|t| - 2] && Trim(t[2..|t| - 2]) == t[2..|t| - 2]
  }

  lemma MatchTokenShape(s: string, p: nat)
    requires MatchesAt(s, p)
    ensures IsPlaceholderToken(Token(MatchKey(s, p)))
  {
    var k := MatchKey(s, p);
    var t := Token(k);
    assert t[2..|t| - 2] == k;
    assert '}' !in s[p + 2..CloseFrom(s, p + 2)];
    TrimKeepsChars(s[p + 2..CloseFrom(s, p + 2)]);
    TrimUnpadded(k);
  }

  /** The tokens the exec loop produces on one text, starting at `lastIndex == from`. */
  function TokensFrom(s: string, from: nat): (r: seq<string>)
    ensures r != [] ==> from + 5 * |r| <= |s|
    decreases |s| - from
  {
    match Exec(s, from)
    case None => []
    case Some(m) => [Token(m.key)] + TokensFrom(s, m.lastIndex)
  }

  lemma {:induction false} TokensWellFormed(s: string, from: nat)
    ensures forall t :: t in TokensFrom(s, from) ==> IsPlaceholderToken(t)
    decreases |s| - from
  {
    match NextMatch(s, from)
    case None =>
    case Some(p) =>
      MatchTokenShape(s, p);
      TokensWellFormed(s, MatchEnd(s, p));
  }

  /** A component contributes the tokens of its text; one without text contributes none. */
  function ComponentTokens(c: TemplateComponent): (r: seq<string>)
    ensures !Truthy(c.text) ==> r == []
  {
    if Truthy(c.text) then TokensFrom(c.text.value, 0) else []
  }

  /** Every token of the components, in order, repetitions included. */
  function AllTokens(cs: seq<TemplateComponent>): (r: seq<string>)
    decreases |cs|
  {
    if cs == [] then [] else AllTokens(cs[..|cs| - 1]) + ComponentTokens(cs[|cs| - 1])
  }

  lemma {:induction false} AllTokensWellFormed(cs: seq<TemplateComponent>)
    ensures forall t :: t in AllTokens(cs) ==> IsPlaceholderToken(t)
    decreases |cs|
  {
    if cs != [] {
      AllTokensWellFormed(cs[..|cs| - 1]);
      var c := cs[|cs| - 1];
      if Truthy(c.text) {
        TokensWellFormed(c.text.value, 0);
      }
    }
  }

  /** The step of the outer loop: the tokens of one more component follow the others'. */
  lemma AllTokensSnoc(cs: seq<TemplateComponent>, i: nat)
    requires i < |cs|
    ensures AllTokens(cs[..i + 1]) == AllTokens(cs[..i]) + ComponentTokens(cs[i])
  {
    assert cs[..i + 1][..i] == cs[..i];
  }

  /** `extractPlaceholders`: the distinct tokens in first-occurrence order. The `exec` loop
      runs per component; a failed `exec` resets `lastIndex`, so each text is read from its
      start. */
  method ExtractPlaceholders(template: WhatsAppTemplate) returns (placeholders: seq<string>)
    ensures placeholders == Dedup(AllTokens(template.components))
  {
    var cs := template.components;
    placeholders := [];
    for i := 0 to |cs|
      invariant placeholders == PushAll([], AllTokens(cs[..i]))
    {
      AllTokensSnoc(cs, i);
      PushAllAppend([], AllTokens(cs[..i]), ComponentTokens(cs[i]));
      var component := cs[i];
      if Truthy(component.text) {
        placeholders := AddTextPlaceholders(component.text.value, placeholders);
      }
    }
    assert cs[..|cs|] == cs;
    PushAllDedup([], AllTokens(cs));
    assert [] + AllTokens(cs) == AllTokens(cs);
  }

  /** The `while (regex.exec(text))` loop of one component: push each token not yet included. */
  method AddTextPlaceholders(text: string, placeholders: seq<string>) returns (result: seq<string>)
    ensures result == PushAll(placeholders, TokensFrom(text, 0))
  {
    result := placeholders;
    var lastIndex := 0;
    var m := Exec(text, lastIndex);
    while m.Some?
      invariant lastIndex <= |text|
      invariant m == Exec(text, lastIndex)
      invariant PushAll(result, TokensFrom(text, lastIndex)) == PushAll(placeholders, TokensFrom(text, 0))
      decreases |text| - lastIndex
    {
      var token := Token(m.value.key);
      if token !in result {
        result := result + [token];
      }
      lastIndex := m.value.lastIndex;
      m := Exec(text, lastIndex);
    }
  }

  /** Every placeholder is a well-formed token, and none repeats. */
  lemma PlaceholdersWellFormed(template: WhatsAppTemplate)
    ensures forall t :: t in Dedup(AllTokens(template.components)) ==> IsPlaceholderToken(t)
    ensures NoDuplicates(Dedup(AllTokens(template.components)))
  {
    AllTokensWellFormed(template.components);
  }

  /** Placeholders come in the order of their first occurrence: components in order, then
      left to right within a text. */
  lemma PlaceholdersInFirstOccurrenceOrder(template: WhatsAppTemplate)
    ensures forall i, j :: 0 <= i < j < |Dedup(AllTokens(template.components))| ==>
      FirstIndex(AllTokens(template.components), Dedup(AllTokens(template.components))[i]) <
      FirstIndex(AllTokens(template.components), Dedup(AllTokens(template.components))[j])
  {
    DedupFirstOccurrenceOrder(AllTokens(template.components));
  }

  /** A component without text adds no placeholder. */
  lemma TextlessComponentIgnored(cs: seq<TemplateComponent>, c: TemplateComponent)
    requires !Truthy(c.text)
    ensures AllTokens(cs + [c]) == AllTokens(cs)
  {
    assert (cs + [c])[..|cs|] == cs;
  }

  /** Whitespace around a key does not matter: `"{{ 1 }}"` and `"{{1}}"` give the same token. */
  lemma PaddingInsignificant(a: string, k: string, b: string)
    requires AllWhitespace(a) && AllWhitespace(b)
    requires k != [] && !IsWhitespace(k[0]) && !IsWhitespace(k[|k| - 1]) && '}' !in k
    ensures TokensFrom("{{" + a + k + b + "}}", 0) == [Token(k)]
  {
    var s := "{{" + a + k + b + "}}";
    var f := 2 + |a| + |k| + |b|;
    assert s[2..f] == a + k + b;
    assert '}' !in a && '}' !in b by {
      assert !IsWhitespace('}');
    }
    assert '}' !in s[2..f];
    CloseFromUnique(s, 2, f);
    assert MatchesAt(s, 0);
    TrimPadding(a, k, b);
    TrimUnpadded(k);
    assert MatchKey(s, 0) == k;
    assert NextMatch(s, 0) == Some(0);
    assert NextMatch(s, |s|) == None;
  }

  /** `getStatusBadgeVariant`. */
  function StatusBadgeVariant(status: string): (v: string)
    ensures v == "success" <==> status == "APPROVED"
    ensures v == "warning" <==> status == "PENDING"
    ensures v == "destructive" <==> status == "REJECTED"
    ensures v == "secondary" <==> status == "DISABLED"
    ensures v == "outline" <==> status !in ["APPROVED", "PENDING", "REJECTED", "DISABLED"]
  {
    match status
    case "APPROVED" => "success"
    case "PENDING" => "warning"
    case "REJECTED" => "destructive"
    case "DISABLED" => "secondary"
    case _ => "outline"
  }
}

/** The pasted-text contact parser of the campaign wizard: one contact per line, fields split
    by the regular expression `/[,\t]+|\s{2,}/`, phone numbers cleaned and checked. */
module ContactParsing {
  import opened Wrappers
  import opened Strings
  import opened Seqs
  import opened PhoneNumbers

  /** `ImportContact`: an optional name (absent, not empty, for a phone-only line) and a phone. */
  datatype ImportContact = ImportContact(name: Option<string>, phone_number: string)

  predicate IsCommaOrTab(c: char) {
    c == ',' || c == '\t'
  }

  /** The length of the longest run of characters satisfying `p` that starts at `q`. */
  function RunLength(s: string, q: nat, p: char -> bool): (n: nat)
    requires q <= |s|
    ensures q + n <= |s|
    ensures forall k :: q <= k < q + n ==> p(s[k])
    ensures q + n == |s| || !p(s[q + n])
    decreases |s| - q
  {
    if q < |s| && p(s[q]) then 1 + RunLength(s, q + 1, p) else 0
  }

  /** The length of the match of `/[,\t]+|\s{2,}/` at position `q`, or 0 when it fails there.
      The first alternative is tried first and is greedy; the second needs two whitespace
      characters at least and is greedy too. The pattern never matches the empty string. */
  function SeparatorAt(s: string, q: nat): (n: nat)
    requires q <= |s|
    ensures q + n <= |s|
    ensures n > 0 ==> q < |s| && (IsCommaOrTab(s[q]) || n >= 2)
    ensures q < |s| && IsCommaOrTab(s[q]) ==> n > 0
    ensures q + 1 < |s| && IsWhitespace(s[q]) && IsWhitespace(s[q + 1]) ==> n > 0
  {
    if q < |s| && IsCommaOrTab(s[q]) then RunLength(s, q, IsCommaOrTab)
    else
      var w := RunLength(s, q, IsWhitespace);
      if w >= 2 then w else 0
  }

  /** The splitting loop of `String.prototype.split` with a regular expression: `p` is where
      the current field began, `q` the next position to try a match at. */
  function SplitFrom(s: string, p: nat, q: nat): (parts: seq<string>)
    requires p <= q <= |s|
    ensures |parts| >= 1
    decreases |s| - q
  {
    if q == |s| then [s[p..]]
    else
      var n := SeparatorAt(s, q);
      if n == 0 then SplitFrom(s, p, q + 1) else [s[p..q]] + SplitFrom(s, q + n, q + n)
  }

  /** `s.split(/[,\t]+|\s{2,}/)`. */
  function SplitFields(s: string): (parts: seq<string>)
    ensures |parts| >= 1
  {
    SplitFrom(s, 0, 0)
  }

  /** `.map(p => p.trim())`. */
  function TrimAll(parts: seq<string>): (r: seq<string>)
    ensures |r| == |parts|
    ensures forall i :: 0 <= i < |r| ==> r[i] == Trim(parts[i])
    decreases |parts|
  {
    if parts == [] then [] else [Trim(parts[0])] + TrimAll(parts[1..])
  }

  predicate NoSeparatorIn(s: string, from: nat, to: nat)
    requires from <= to <= |s|
  {
    forall k :: from <= k < to ==> SeparatorAt(s, k) == 0
  }

  /** Positions where nothing matches are skipped without ending the current field. */
  lemma {:induction false} SplitSkip(s: string, p: nat, q: nat, k: nat)
    requires p <= q <= k <= |s|
    requires NoSeparatorIn(s, q, k)
    ensures SplitFrom(s, p, q) == SplitFrom(s, p, k)
    decreases k - q
  {
    if q < k {
      assert SeparatorAt(s, q) == 0;
      SplitSkip(s, p, q + 1, k);
    }
  }

  /** The split yields a single field exactly when the separator matches nowhere after `q`. */
  lemma {:induction false} SplitSingleIff(s: string, p: nat, q: nat)
    requires p <= q <= |s|
    ensures |SplitFrom(s, p, q)| == 1 <==> NoSeparatorIn(s, q, |s|)
    decreases |s| - q
  {
    if q < |s| {
      var n := SeparatorAt(s, q);
      if n == 0 {
        SplitSingleIff(s, p, q + 1);
      }
    }
  }

  /** A line is one field (a phone number alone) exactly when it holds no comma, no tab and no
      two whitespace characters in a row; otherwise it has two fields or more. */
  lemma OneFieldIff(s: string)
    ensures |SplitFields(s)| == 1 <==>
              forall k :: 0 <= k < |s| ==>
                !IsCommaOrTab(s[k]) && !(k + 1 < |s| && IsWhitespace(s[k]) && IsWhitespace(s[k + 1]))
  {
    SplitSingleIff(s, 0, 0);
    if NoSeparatorIn(s, 0, |s|) {
      forall k | 0 <= k < |s|
        ensures !IsCommaOrTab(s[k]) && !(k + 1 < |s| && IsWhitespace(s[k]) && IsWhitespace(s[k + 1]))
      {
        assert SeparatorAt(s, k) == 0;
      }
    } else {
      var k :| 0 <= k < |s| && SeparatorAt(s, k) != 0;
      if !IsCommaOrTab(s[k]) {
        assert RunLength(s, k, IsWhitespace) >= 2;
        assert IsWhitespace(s[k]) && IsWhitespace(s[k + 1]);
      }
    }
  }

  /** The contact one line of pasted text yields, if any: blank lines are skipped; with two
      fields or more the first is the name and the second the phone; a single field is the
      phone; a phone that fails the check after formatting drops the line. */
  function ParseLine(line: string): (r: Option<ImportContact>)
    ensures r.Some? ==> ValidatePhoneNumber(r.value.phone_number)
    ensures IsBlank(line) ==> r.None?
  {
    var trimmedLine := Trim(line);
    if trimmedLine == "" then None
    else
      var parts := TrimAll(SplitFields(trimmedLine));
      if |parts| >= 2 then
        var phone := FormatPhoneNumber(parts[1]);
        if ValidatePhoneNumber(phone) then Some(ImportContact(Some(parts[0]), phone)) else None
      else
        var phone := FormatPhoneNumber(parts[0]);
        if ValidatePhoneNumber(phone) then Some(ImportContact(None, phone)) else None
  }

  /** The contacts of a sequence of lines, in line order. */
  function ParseLines(lines: seq<string>): (r: seq<ImportContact>)
    ensures |r| <= |lines|
    ensures forall i :: 0 <= i < |r| ==> ValidatePhoneNumber(r[i].phone_number)
    decreases |lines|
  {
    if lines == [] then [] else ParseLines(lines[..|lines| - 1]) + LineContacts(lines[|lines| - 1])
  }

  /** The contact of one line as a sequence of zero or one elements. */
  function LineContacts(line: string): (r: seq<ImportContact>)
    ensures |r| <= 1
    ensures forall i :: 0 <= i < |r| ==> ValidatePhoneNumber(r[i].phone_number)
  {
    match ParseLine(line)
    case Some(c) => [c]
    case None => []
  }

  function CountNonBlank(lines: seq<string>): nat
    decreases |lines|
  {
    if lines == [] then 0
    else CountNonBlank(lines[..|lines| - 1]) + (if IsBlank(lines[|lines| - 1]) then 0 else 1)
  }

  /** Parsing is line by line: the contacts of two blocks of lines are those of the first
      followed by those of the second. */
  lemma {:induction false} ParseLinesAppend(a: seq<string>, b: seq<string>)
    ensures ParseLines(a + b) == ParseLines(a) + ParseLines(b)
  {
    ParseLinesFlatMap(a + b);
    ParseLinesFlatMap(a);
    ParseLinesFlatMap(b);
    FlatMapAppend(a, b, LineContacts);
  }

  lemma {:induction false} ParseLinesFlatMap(lines: seq<string>)
    ensures ParseLines(lines) == FlatMap(lines, LineContacts)
    decreases |lines|
  {
    if lines != [] {
      ParseLinesFlatMap(lines[..|lines| - 1]);
    }
  }

  /** At most one contact per non-blank line. */
  lemma {:induction false} ParseLinesAtMostNonBlank(lines: seq<string>)
    ensures |ParseLines(lines)| <= CountNonBlank(lines)
    decreases |lines|
  {
    if lines != [] {
      ParseLinesAtMostNonBlank(lines[..|lines| - 1]);
    }
  }

  /** The body of the `forEach` callback of `parseContactsFromText`: the contact one line
      contributes, if any. */
  method ContactOfLine(line: string) returns (contact: Option<ImportContact>)
    ensures contact == ParseLine(line)
  {
    var trimmedLine := Trim(line);
    if trimmedLine == "" {
      return None;
    }
    var parts := TrimAll(SplitFields(trimmedLine));
    contact := None;
    if |parts| >= 2 {
      var name := parts[0];
      var phone := FormatPhoneNumber(parts[1]);
      if ValidatePhoneNumber(phone) {
        contact := Some(ImportContact(Some(name), phone));
      }
    } else if |parts| == 1 {
      var phone := FormatPhoneNumber(parts[0]);
      if ValidatePhoneNumber(phone) {
        contact := Some(ImportContact(None, phone));
      }
    }
  }

  /** `parseContactsFromText`: splits the trimmed text on line feeds and collects the contact of
      every line, skipping blank lines and lines whose phone fails the check. */
  method ParseContactsFromText(text: string) returns (parsedContacts: seq<ImportContact>)
    ensures parsedContacts == ParseLines(SplitOn(Trim(text), '\n'))
  {
    var lines := SplitOn(Trim(text), '\n');
    parsedContacts := [];
    var i := 0;
    while i < |lines|
      invariant 0 <= i <= |lines|
      invariant parsedContacts == FlatMap(lines[..i], LineContacts)
    {
      var line := lines[i];
      FlatMapStep(lines, i, LineContacts);
      var contact := ContactOfLine(line);
      assert LineContacts(line) == if contact.Some? then [contact.value] else [];
      if contact.Some? {
        parsedContacts := parsedContacts + [contact.value];
      }
      i := i + 1;
    }
    PrefixFull(lines);
    ParseLinesFlatMap(lines);
  }

  /** A name that survives a round trip through a pasted line: no comma, tab or line feed, no
      whitespace at its ends and never two whitespace characters in a row. */
  predicate PlainName(n: string) {
    && (forall i :: 0 <= i < |n| ==> !IsCommaOrTab(n[i]) && n[i] != '\n')
    && (n != [] ==> !IsWhitespace(n[0]) && !IsWhitespace(n[|n| - 1]))
    && (forall i :: 0 <= i < |n| - 1 ==> !(IsWhitespace(n[i]) && IsWhitespace(n[i + 1])))
  }

  predicate Exportable(c: ImportContact) {
    ValidatePhoneNumber(c.phone_number) && (c.name.Some? ==> PlainName(c.name.value))
  }

  /** The line a user would paste for a contact: `Name,+phone`, or the phone alone. */
  function ContactLine(c: ImportContact): string {
    match c.name
    case Some(n) => n + "," + c.phone_number
    case None => c.phone_number
  }

  lemma PhoneHasNoSeparator(s: string, from: nat)
    requires from <= |s| && ValidatePhoneNumber(s[from..])
    ensures NoSeparatorIn(s, from, |s|)
  {
    forall k | from <= k < |s| ensures SeparatorAt(s, k) == 0 {
      assert s[from..][k - from] == s[k];
      assert !IsWhitespace(s[k]) && !IsCommaOrTab(s[k]);
    }
  }

  lemma PlainNameNoSeparator(line: string, n: string)
    requires PlainName(n) && n <= line
    ensures NoSeparatorIn(line, 0, |n|)
  {
    forall k | 0 <= k < |n| ensures SeparatorAt(line, k) == 0 {
      assert line[k] == n[k];
      if IsWhitespace(n[k]) {
        assert k + 1 < |n|;
        assert line[k + 1] == n[k + 1];
      }
    }
  }

  /** A phone number that passes the check, at the end of a string, is its last field. */
  lemma SplitPhoneSuffix(s: string, from: nat)
    requires from <= |s| && ValidatePhoneNumber(s[from..])
    ensures SplitFrom(s, from, from) == [s[from..]]
  {
    PhoneHasNoSeparator(s, from);
    SplitSkip(s, from, from, |s|);
  }

  lemma SingleComma(s: string, q: nat)
    requires q + 1 < |s| && s[q] == ',' && s[q + 1] == '+'
    ensures SeparatorAt(s, q) == 1
  {
    assert RunLength(s, q + 1, IsCommaOrTab) == 0;
  }

  /** A single comma ends the current field and starts the next one right after it. */
  lemma SplitAtComma(s: string, p: nat, q: nat)
    requires p <= q && q + 1 < |s| && s[q] == ',' && s[q + 1] == '+'
    ensures SplitFrom(s, p, q) == [s[p..q]] + SplitFrom(s, q + 1, q + 1)
  {
    SingleComma(s, q);
  }

  /** The name of `Name,+phone` is skipped over without a split. */
  lemma SplitSkipsName(line: string, n: string)
    requires PlainName(n) && n <= line
    ensures SplitFrom(line, 0, 0) == SplitFrom(line, 0, |n|)
  {
    PlainNameNoSeparator(line, n);
    SplitSkip(line, 0, 0, |n|);
  }

  /** After the comma, the phone is the last field. */
  lemma SplitAfterComma(line: string, n: string, phone: string)
    requires line == n + "," + phone && ValidatePhoneNumber(phone)
    ensures SplitFrom(line, 0, |n|) == [n, phone]
  {
    assert line[|n|] == ',' && line[|n| + 1] == phone[0];
    SplitAtComma(line, 0, |n|);
    assert line[|n| + 1..] == phone;
    SplitPhoneSuffix(line, |n| + 1);
    assert line[..|n|] == n;
  }

  /** `Name,+phone` splits into the name and the phone. */
  lemma SplitNameAndPhone(n: string, phone: string)
    requires PlainName(n) && ValidatePhoneNumber(phone)
    ensures SplitFields(n + "," + phone) == [n, phone]
  {
    var line := n + "," + phone;
    assert n <= line;
    SplitSkipsName(line, n);
    SplitAfterComma(line, n, phone);
  }

  /** A phone number that passes the check is a single field. */
  lemma SplitPhoneOnly(phone: string)
    requires ValidatePhoneNumber(phone)
    ensures SplitFields(phone) == [phone]
  {
    assert phone[0..] == phone;
    SplitPhoneSuffix(phone, 0);
  }

  /** A checked phone number has no whitespace at its ends and formats to itself. */
  lemma PhoneUntouched(phone: string)
    requires ValidatePhoneNumber(phone)
    ensures Trim(phone) == phone && FormatPhoneNumber(phone) == phone
  {
    ValidIsFormatted(phone);
    TrimUnpadded(phone);
  }

  /** A checked phone number alone on a line is a contact without a name. */
  lemma ParsePhoneLine(phone: string)
    requires ValidatePhoneNumber(phone)
    ensures ParseLine(phone) == Some(ImportContact(None, phone))
  {
    PhoneUntouched(phone);
    SplitPhoneOnly(phone);
    assert TrimAll([phone]) == [phone];
  }

  /** `Name,+phone` is the contact with that name and phone. */
  lemma ParseNamedLine(n: string, phone: string)
    requires PlainName(n) && ValidatePhoneNumber(phone)
    ensures ParseLine(n + "," + phone) == Some(ImportContact(Some(n), phone))
  {
    var line := n + "," + phone;
    PhoneUntouched(phone);
    ContactLineShape(ImportContact(Some(n), phone));
    TrimUnpadded(line);
    TrimUnpadded(n);
    SplitNameAndPhone(n, phone);
    assert TrimAll([n, phone]) == [n, phone];
  }

  /** The line written for a well-formed contact parses back to that contact. */
  lemma ParseContactLine(c: ImportContact)
    requires Exportable(c)
    ensures ParseLine(ContactLine(c)) == Some(c)
  {
    match c.name
    case None => ParsePhoneLine(c.phone_number);
    case Some(n) => ParseNamedLine(n, c.phone_number);
  }

  function ContactLines(cs: seq<ImportContact>): (lines: seq<string>)
    ensures |lines| == |cs|
    ensures forall i :: 0 <= i < |cs| ==> lines[i] == ContactLine(cs[i])
  {
    seq(|cs|, i requires 0 <= i < |cs| => ContactLine(cs[i]))
  }

  lemma LineOfContact(c: ImportContact)
    requires Exportable(c)
    ensures LineContacts(ContactLine(c)) == [c]
  {
    ParseContactLine(c);
  }

  /** Pasting the lines of well-formed contacts, one per line, imports exactly those contacts. */
  lemma {:induction false} ParseContactLines(cs: seq<ImportContact>)
    requires forall i :: 0 <= i < |cs| ==> Exportable(cs[i])
    ensures ParseLines(ContactLines(cs)) == cs
    decreases |cs|
  {
    if cs != [] {
      var init, last := cs[..|cs| - 1], cs[|cs| - 1];
      var lines := ContactLines(cs);
      assert lines[..|cs| - 1] == ContactLines(init);
      assert ParseLines(lines) == ParseLines(ContactLines(init)) + LineContacts(ContactLine(last));
      LineOfContact(last);
      ParseContactLines(init);
      InitLast(cs);
    }
  }

  lemma {:induction false} JoinEnds(parts: seq<string>, sep: char)
    requires |parts| >= 1 && forall i :: 0 <= i < |parts| ==> parts[i] != []
    ensures var j := Join(parts, sep);
      j != [] && j[0] == parts[0][0] && j[|j| - 1] == parts[|parts| - 1][|parts[|parts| - 1]| - 1]
    decreases |parts|
  {
    if |parts| > 1 {
      JoinEnds(parts[1..], sep);
    }
  }

  /** A contact's line has no line feed and starts and ends with a non-whitespace character. */
  lemma ContactLineShape(c: ImportContact)
    requires Exportable(c)
    ensures var l := ContactLine(c);
      l != [] && '\n' !in l && !IsWhitespace(l[0]) && !IsWhitespace(l[|l| - 1])
  {
    var p := c.phone_number;
    assert '\n' !in p by {
      forall k | 0 <= k < |p| ensures p[k] != '\n' {
        if k >= 2 { assert p[2..][k - 2] == p[k]; }
      }
    }
    if c.name.Some? {
      var n := c.name.value;
      var l := n + "," + p;
      assert l[|l| - 1] == p[|p| - 1];
      forall k | 0 <= k < |l| ensures l[k] != '\n' {
        if k < |n| { assert l[k] == n[k]; }
        else if k > |n| { assert l[k] == p[k - |n| - 1]; }
      }
    }
  }

  lemma ContactLinesPlain(cs: seq<ImportContact>)
    requires forall i :: 0 <= i < |cs| ==> Exportable(cs[i])
    ensures forall i :: 0 <= i < |cs| ==> '\n' !in ContactLines(cs)[i] && ContactLines(cs)[i] != []
  {
    forall i | 0 <= i < |cs| ensures '\n' !in ContactLines(cs)[i] && ContactLines(cs)[i] != [] {
      ContactLineShape(cs[i]);
    }
  }

  /** The joined text of well-formed contacts' lines has nothing for `trim` to remove. */
  lemma ContactTextUntrimmed(cs: seq<ImportContact>)
    requires cs != [] && forall i :: 0 <= i < |cs| ==> Exportable(cs[i])
    ensures Trim(Join(ContactLines(cs), '\n')) == Join(ContactLines(cs), '\n')
  {
    var lines := ContactLines(cs);
    ContactLinesPlain(cs);
    ContactLineShape(cs[0]);
    ContactLineShape(cs[|cs| - 1]);
    JoinEnds(lines, '\n');
    TrimUnpadded(Join(lines, '\n'));
  }

  /** Joining the lines of well-formed contacts with line feeds, trimming and splitting on
      line feeds gives the lines back. */
  lemma ContactTextLines(cs: seq<ImportContact>)
    requires cs != [] && forall i :: 0 <= i < |cs| ==> Exportable(cs[i])
    ensures SplitOn(Trim(Join(ContactLines(cs), '\n')), '\n') == ContactLines(cs)
  {
    ContactTextUntrimmed(cs);
    ContactLinesPlain(cs);
    SplitOnJoin(ContactLines(cs), '\n');
  }

  /** The text made of those lines round-trips through `parseContactsFromText`'s definition. */
  lemma ParseContactText(cs: seq<ImportContact>)
    requires forall i :: 0 <= i < |cs| ==> Exportable(cs[i])
    ensures ParseLines(SplitOn(Trim(Join(ContactLines(cs), '\n')), '\n')) == cs
  {
    if cs == [] {
      assert SplitOn(Trim(""), '\n') == [""];
    } else {
      ContactTextLines(cs);
      ParseContactLines(cs);
    }
  }
}

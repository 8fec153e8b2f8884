/** The tenant schema of a signed-in user: the lookup with retries, and the browser cookie that
    remembers it. */
module UserSchema {
  import opened Wrappers
  import opened Strings
  import opened Seqs

  /** What one query of the `user_schema` table gave. */
  datatype Attempt =
    | QueryFailed(code: Option<string>, message: Option<string>)  // the client returned an error
    | Threw                                                        // the query raised
    | Fetched(schema_name: Option<string>)                         // a row, or none (`data` null)

  /** The errors that mean "there is no row", after which retrying is pointless. */
  predicate NoSuchRow(a: Attempt) {
    a.QueryFailed? &&
    (a.code == Some("PGRST116") || (a.message.Some? && Contains(a.message.value, "Row not found")))
  }

  /** An attempt that ends the lookup whatever the number of retries left. */
  predicate Settles(a: Attempt) {
    a.Fetched? || NoSuchRow(a)
  }

  /** The lookup's answer once an attempt settles it: the schema name when it is non-empty. */
  function SettledValue(a: Attempt): (v: Option<string>)
    requires Settles(a)
    ensures v.Some? <==> a.Fetched? && Truthy(a.schema_name)
    ensures v.Some? ==> v.value != "" && Some(v.value) == a.schema_name
  {
    if a.Fetched? && Truthy(a.schema_name) then Some(a.schema_name.value) else None
  }

  /** The lookup from attempt number `attempt` on: its answer and how many attempts it made
      in total. `attempts(n)` is the outcome of the n-th query. */
  function Lookup(retries: int, attempts: nat -> Attempt, attempt: nat): (Option<string>, nat)
    requires attempt >= 1
    decreases if attempt <= retries then retries - attempt + 1 else 0
  {
    if attempt > retries then (None, attempt - 1)
    else if Settles(attempts(attempt)) then (SettledValue(attempts(attempt)), attempt)
    else Lookup(retries, attempts, attempt + 1)
  }

  /** `getUserSchema`: queries up to `retries` times, stops at the first row or "no row" error,
      and answers `null` after the last failed attempt. Also reports the attempts made. */
  method GetUserSchema(retries: int, attempts: nat -> Attempt) returns (schema: Option<string>, made: nat)
    ensures (schema, made) == Lookup(retries, attempts, 1)
  {
    var attempt := 1;
    while attempt <= retries
      invariant attempt >= 1
      invariant Lookup(retries, attempts, attempt) == Lookup(retries, attempts, 1)
      decreases retries - attempt
    {
      match attempts(attempt) {
        case QueryFailed(code, message) =>
          if code == Some("PGRST116") || (message.Some? && Contains(message.value, "Row not found")) {
            return None, attempt;
          }
          if attempt == retries {
            return None, attempt;
          }
        case Threw =>
          if attempt == retries {
            return None, attempt;
          }
        case Fetched(schemaName) =>
          if !Truthy(schemaName) {
            return None, attempt;
          }
          return Some(schemaName.value), attempt;
      }
      attempt := attempt + 1;
    }
    return None, attempt - 1;
  }

  /** At most `retries` queries are made, and none when `retries` is not positive. */
  lemma {:induction false} LookupBounded(retries: int, attempts: nat -> Attempt, attempt: nat)
    requires attempt >= 1
    ensures var (_, made) := Lookup(retries, attempts, attempt);
      made <= (if retries < attempt then attempt - 1 else retries)
    decreases if attempt <= retries then retries - attempt + 1 else 0
  {
    if attempt <= retries && !Settles(attempts(attempt)) {
      LookupBounded(retries, attempts, attempt + 1);
    }
  }

  /** The first settling attempt within the budget decides the answer, and no query follows it. */
  lemma {:induction false} LookupFirstSettled(retries: int, attempts: nat -> Attempt, attempt: nat, k: nat)
    requires 1 <= attempt <= k <= retries
    requires Settles(attempts(k))
    requires forall j :: attempt <= j < k ==> !Settles(attempts(j))
    ensures Lookup(retries, attempts, attempt) == (SettledValue(attempts(k)), k)
    decreases k - attempt
  {
    if attempt < k {
      LookupFirstSettled(retries, attempts, attempt + 1, k);
    }
  }

  /** When no attempt settles, every one of the `retries` queries is made and the answer is
      `null`. */
  lemma {:induction false} LookupExhausted(retries: int, attempts: nat -> Attempt, attempt: nat)
    requires attempt >= 1
    requires forall j :: attempt <= j <= retries ==> !Settles(attempts(j))
    ensures Lookup(retries, attempts, attempt) == (None, if retries < attempt then attempt - 1 else retries)
    decreases if attempt <= retries then retries - attempt + 1 else 0
  {
    if attempt <= retries {
      LookupExhausted(retries, attempts, attempt + 1);
    }
  }

  /** A schema name is only ever answered when some attempt fetched exactly that name. */
  lemma {:induction false} LookupAnswerFetched(retries: int, attempts: nat -> Attempt, attempt: nat)
    requires attempt >= 1
    ensures var (schema, _) := Lookup(retries, attempts, attempt);
      schema.Some? ==>
        schema.value != "" && exists j :: attempt <= j <= retries && attempts(j) == Fetched(Some(schema.value))
    decreases if attempt <= retries then retries - attempt + 1 else 0
  {
    if attempt <= retries {
      if Settles(attempts(attempt)) {
        var schema := SettledValue(attempts(attempt));
        if schema.Some? {
          assert attempts(attempt) == Fetched(Some(schema.value));
        }
      } else {
        LookupAnswerFetched(retries, attempts, attempt + 1);
      }
    }
  }

  const CookieName := "user_schema"

  /** Seven days, in seconds. */
  const MaxAge: nat := 7 * 24 * 60 * 60

  /** The attributes after the value: the whole site, seven days, `SameSite=Lax`, and `Secure`
      in production. */
  function CookieAttributes(production: bool): (attrs: string)
    ensures attrs == "; path=/; max-age=" + NatToString(MaxAge) + "; SameSite=Lax" +
      (if production then "; Secure" else "")
    ensures EndsWith(attrs, "; Secure") <==> production
  {
    var common := "; path=/; max-age=" + "604800" + "; SameSite=Lax";
    var secure := if production then "; Secure" else "";
    MaxAgeText();
    SuffixOfAppend(common, secure, |secure|);
    assert common[|common| - 8..] == "Site=Lax";
    assert "Site=Lax"[0] != "; Secure"[0];
    assert secure[|secure| - |secure|..] == secure;
    common + secure
  }

  /** The cookie string written for a schema: `user_schema=<name>`, then the attributes. */
  function SchemaCookie(schemaName: string, production: bool): (cookie: string)
    ensures cookie == CookieName + "=" + schemaName + "; path=/; max-age=" + NatToString(MaxAge) +
      "; SameSite=Lax" + (if production then "; Secure" else "")
    ensures EndsWith(cookie, "; Secure") <==> production
  {
    var attrs := CookieAttributes(production);
    var cookie := CookieName + "=" + schemaName + attrs;
    assert cookie[|cookie| - |attrs|..] == attrs;
    assert |attrs| >= 8;
    assert cookie[|cookie| - 8..] == attrs[|attrs| - 8..];
    cookie
  }

  /** The max-age written is 604800 seconds. */
  lemma MaxAgeText()
    ensures NatToString(MaxAge) == "604800"
  {
    NatToStringRoundTrip(MaxAge);
  }

  /** `setUserSchemaCookie`: the cookie written, or nothing outside a browser; it reports
      success exactly when it wrote. */
  function SetUserSchemaCookie(documentAvailable: bool, schemaName: string, production: bool): (written: Option<string>)
    ensures written.Some? <==> documentAvailable
    ensures written.Some? ==> written.value == SchemaCookie(schemaName, production)
  {
    if documentAvailable then Some(SchemaCookie(schemaName, production)) else None
  }

  /** The start of the Unix epoch, as written in an `expires` attribute. */
  const UnixEpoch := "Thu, 01 Jan 1970 00:00:00 GMT"

  /** The cookie string that expires the schema cookie. */
  const ExpiredCookie := CookieName + "=;" + " path=/; expires=" + UnixEpoch

  /** `removeUserSchemaCookie`: the expiring cookie, or nothing outside a browser. */
  function RemoveUserSchemaCookie(documentAvailable: bool): (written: Option<string>)
    ensures written.Some? <==> documentAvailable
    ensures written.Some? ==> written.value == ExpiredCookie
  {
    if documentAvailable then Some(ExpiredCookie) else None
  }

  /** Whether a `;`-separated entry is the schema cookie: it starts with `user_schema=` once
      trimmed. */
  predicate IsSchemaEntry(entry: string) {
    CookieName + "=" <= Trim(entry)
  }

  /** `getUserSchemaCookie`: the trimmed text between the first and the second `=` of the first
      schema entry of `document.cookie`; `None` for a missing document or entry. */
  function GetUserSchemaCookie(cookies: Option<string>): (schema: Option<string>)
    ensures schema.Some? ==>
      cookies.Some? && exists i :: 0 <= i < |SplitOn(cookies.value, ';')| && IsSchemaEntry(SplitOn(cookies.value, ';')[i])
  {
    if cookies.None? then None
    else
      match Find(SplitOn(cookies.value, ';'), IsSchemaEntry)
      case None => None
      case Some(entry) =>
        assert '=' in CookieName + "=";
        TrimKeepsChars(entry);
        SplitOnSeparated(entry, '=');
        Some(Trim(SplitOn(entry, '=')[1]))
  }

  /** A schema entry as the browser lists it, after other cookies: optional blanks, the name,
      `=` and the value. */
  function SchemaEntry(pad: string, schemaName: string): string {
    pad + CookieName + "=" + schemaName
  }

  lemma WhitespaceExcludes(pad: string, c: char)
    requires AllWhitespace(pad) && !IsWhitespace(c)
    ensures c !in pad
  {
  }

  lemma SchemaEntryMatches(pad: string, schemaName: string)
    requires AllWhitespace(pad) && Trim(schemaName) == schemaName
    ensures IsSchemaEntry(SchemaEntry(pad, schemaName))
  {
    var k := CookieName + "=" + schemaName;
    assert Trim(k) == k by {
      assert k[|k| - 1] == if schemaName == [] then '=' else schemaName[|schemaName| - 1];
      TrimUnpadded(k);
    }
    assert Trim(SchemaEntry(pad, schemaName)) == Trim(k) by {
      assert SchemaEntry(pad, schemaName) == pad + k + "";
      TrimPadding(pad, k, "");
    }
  }

  lemma SchemaEntryValue(pad: string, schemaName: string)
    requires AllWhitespace(pad) && '=' !in schemaName
    ensures |SplitOn(SchemaEntry(pad, schemaName), '=')| == 2
    ensures SplitOn(SchemaEntry(pad, schemaName), '=')[1] == schemaName
  {
    var head := pad + CookieName;
    WhitespaceExcludes(pad, '=');
    assert '=' !in head;
    var tail := "=" + schemaName;
    assert SchemaEntry(pad, schemaName) == head + tail;
    SplitOnPrefix(head, tail, '=');
    assert tail[1..] == schemaName;
    assert SplitOn(tail, '=') == [""] + SplitOn(schemaName, '=');
    SplitOnJoin([schemaName], '=');
  }

  lemma EntryExcludesSemicolon(pad: string, schemaName: string)
    requires ';' !in pad && ';' !in schemaName
    ensures ';' !in SchemaEntry(pad, schemaName)
  {
    var name := CookieName + "=";
    assert forall i :: 0 <= i < |name| ==> name[i] != ';';
    assert SchemaEntry(pad, schemaName) == pad + name + schemaName;
  }

  /** Reading back: in a cookie list whose earlier entries are other cookies, the schema entry
      gives back the schema name it was written with. */
  lemma CookieRoundTrip(before: seq<string>, pad: string, schemaName: string, after: seq<string>)
    requires forall i :: 0 <= i < |before| ==> ';' !in before[i] && !IsSchemaEntry(before[i])
    requires forall i :: 0 <= i < |after| ==> ';' !in after[i]
    requires AllWhitespace(pad)
    requires ';' !in schemaName && '=' !in schemaName && Trim(schemaName) == schemaName
    ensures GetUserSchemaCookie(Some(Join(before + [SchemaEntry(pad, schemaName)] + after, ';'))) == Some(schemaName)
  {
    var entry := SchemaEntry(pad, schemaName);
    WhitespaceExcludes(pad, ';');
    EntryExcludesSemicolon(pad, schemaName);
    SplitAround(before, entry, after);
    SchemaEntryMatches(pad, schemaName);
    FindFirst(before + [entry] + after, IsSchemaEntry, |before|);
    SchemaEntryValue(pad, schemaName);
  }

  /** The cookie list splits back into its entries. */
  lemma SplitAround(before: seq<string>, entry: string, after: seq<string>)
    requires forall i :: 0 <= i < |before| ==> ';' !in before[i]
    requires forall i :: 0 <= i < |after| ==> ';' !in after[i]
    requires ';' !in entry
    ensures SplitOn(Join(before + [entry] + after, ';'), ';') == before + [entry] + after
  {
    AroundHolds(before, entry, after, e => ';' !in e);
    SplitOnJoin(before + [entry] + after, ';');
  }

  lemma AroundHolds<T>(before: seq<T>, x: T, after: seq<T>, p: T -> bool)
    requires forall i :: 0 <= i < |before| ==> p(before[i])
    requires forall i :: 0 <= i < |after| ==> p(after[i])
    requires p(x)
    ensures forall i :: 0 <= i < |before + [x] + after| ==> p((before + [x] + after)[i])
  {
    var all := before + [x] + after;
    forall i | 0 <= i < |all| ensures p(all[i]) {
      if i < |before| { assert all[i] == before[i]; }
      else if i > |before| { assert all[i] == after[i - |before| - 1]; }
    }
  }

  /** The browser keeps the part of a written cookie before its first `;`: for the schema
      cookie that is the schema entry, and reading it back gives the name that was written. */
  lemma WrittenCookieReadBack(schemaName: string, production: bool)
    requires ';' !in schemaName && '=' !in schemaName && Trim(schemaName) == schemaName
    ensures var pair := SplitOn(SchemaCookie(schemaName, production), ';')[0];
      pair == SchemaEntry("", schemaName) && GetUserSchemaCookie(Some(pair)) == Some(schemaName)
  {
    var entry := SchemaEntry("", schemaName);
    SchemaCookiePair(schemaName, production);
    CookieRoundTrip([], "", schemaName, []);
    assert [] + [entry] + [] == [entry];
  }

  /** The schema cookie's text before its first `;` is the schema entry. */
  lemma SchemaCookiePair(schemaName: string, production: bool)
    requires ';' !in schemaName
    ensures SplitOn(SchemaCookie(schemaName, production), ';')[0] == SchemaEntry("", schemaName)
  {
    var entry := SchemaEntry("", schemaName);
    EntryExcludesSemicolon("", schemaName);
    var attrs := CookieAttributes(production);
    assert attrs[0] == ';';
    assert SchemaCookie(schemaName, production) == entry + [';'] + attrs[1..] by {
      assert entry == CookieName + "=" + schemaName;
      assert attrs == [';'] + attrs[1..];
    }
    FirstPartBeforeSeparator(entry, attrs[1..], ';');
  }

  /** The removal cookie stores an empty schema entry and expires at the Unix epoch, which is
      in the past, so the browser drops the schema cookie. */
  lemma RemovalCookieShape()
    ensures SplitOn(ExpiredCookie, ';')[0] == SchemaEntry("", "")
    ensures EndsWith(ExpiredCookie, "expires=" + UnixEpoch)
  {
    var rest := " path=/; expires=" + UnixEpoch;
    assert ExpiredCookie == SchemaEntry("", "") + [';'] + rest;
    EntryExcludesSemicolon("", "");
    FirstPartBeforeSeparator(SchemaEntry("", ""), rest, ';');
  }
}

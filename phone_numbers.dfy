/** Phone-number cleaning and the E.164-style check of the campaign service. */
module PhoneNumbers {
  import opened Strings

  /** Characters `formatPhoneNumber` keeps: the ones outside the class `[^\d+]`. */
  predicate IsPhoneChar(c: char) {
    IsDigit(c) || c == '+'
  }

  predicate AllPhoneChars(s: string) {
    forall i :: 0 <= i < |s| ==> IsPhoneChar(s[i])
  }

  /** The decimal digits of `s`, in order. */
  function Digits(s: string): (r: string)
    ensures AllDigits(r) && |r| <= |s|
    decreases |s|
  {
    if s == [] then [] else (if IsDigit(s[0]) then [s[0]] else []) + Digits(s[1..])
  }

  lemma {:induction false} DigitsAppend(a: string, b: string)
    ensures Digits(a + b) == Digits(a) + Digits(b)
    decreases |a|
  {
    if a == [] {
      assert a + b == b;
    } else {
      assert (a + b)[1..] == a[1..] + b;
      DigitsAppend(a[1..], b);
    }
  }

  lemma {:induction false} DigitsOfDigits(s: string)
    requires AllDigits(s)
    ensures Digits(s) == s
    decreases |s|
  {
    if s != [] {
      DigitsOfDigits(s[1..]);
    }
  }

  /** `phone.replace(/[^\d+]/g, '')`: removes every character but digits and `'+'`. The result
      holds only those characters, and exactly the digits of the input, in the same order. */
  function Clean(phone: string): (r: string)
    ensures AllPhoneChars(r)
    ensures Digits(r) == Digits(phone)
    ensures '+' in r <==> '+' in phone
    decreases |phone|
  {
    if phone == [] then []
    else
      var rest := Clean(phone[1..]);
      assert phone == [phone[0]] + phone[1..];
      if IsPhoneChar(phone[0]) then
        DigitsAppend([phone[0]], rest);
        [phone[0]] + rest
      else rest
  }

  /** Cleaning a string that has only digits and `'+'` leaves it as it is. */
  lemma {:induction false} CleanFixpoint(s: string)
    requires AllPhoneChars(s)
    ensures Clean(s) == s
    decreases |s|
  {
    if s != [] {
      CleanFixpoint(s[1..]);
      assert s == [s[0]] + s[1..];
    }
  }

  lemma PlusPrefixed(cleaned: string)
    requires AllPhoneChars(cleaned)
    ensures AllPhoneChars("+" + cleaned) && ("+" + cleaned)[1..] == cleaned
  {
    var r := "+" + cleaned;
    forall i | 0 <= i < |r| ensures IsPhoneChar(r[i]) {
      if i > 0 { assert r[i] == cleaned[i - 1]; }
    }
  }

  /** `CampaignService.formatPhoneNumber`: the cleaned string, with a `'+'` put in front when it
      does not already start with one. */
  function FormatPhoneNumber(phone: string): (r: string)
    ensures |r| >= 1 && r[0] == '+'
    ensures AllPhoneChars(r)
    ensures Digits(r) == Digits(phone)
    ensures "+" <= Clean(phone) ==> r == Clean(phone)
    ensures !("+" <= Clean(phone)) ==> r[1..] == Clean(phone)
  {
    var cleaned := Clean(phone);
    if "+" <= cleaned then cleaned
    else
      DigitsAppend("+", cleaned);
      PlusPrefixed(cleaned);
      "+" + cleaned
  }

  /** `/^\+[1-9]\d{6,14}$/.test(phone)`: a `'+'`, a digit 1-9, then 6 to 14 more digits. */
  predicate ValidatePhoneNumber(phone: string) {
    && 8 <= |phone| <= 16
    && phone[0] == '+'
    && '1' <= phone[1] <= '9'
    && AllDigits(phone[2..])
  }

  /** The accepted numbers are exactly `'+'` followed by 7 to 15 digits, the first not `'0'`. */
  lemma ValidateCharacterization(phone: string)
    ensures ValidatePhoneNumber(phone) <==>
              (&& |phone| >= 1 && phone[0] == '+'
               && AllDigits(phone[1..])
               && 7 <= |phone[1..]| <= 15
               && phone[1] != '0')
  {
  }

  /** A leading `0` country digit, or any non-digit after the `'+'`, is rejected. */
  lemma ValidateRejects(phone: string, k: nat)
    requires |phone| >= 2 && phone[0] == '+'
    requires phone[1] == '0' || (1 <= k < |phone| && !IsDigit(phone[k]))
    ensures !ValidatePhoneNumber(phone)
  {
  }

  /** Formatting twice is formatting once. */
  lemma FormatIdempotent(phone: string)
    ensures FormatPhoneNumber(FormatPhoneNumber(phone)) == FormatPhoneNumber(phone)
  {
    CleanFixpoint(FormatPhoneNumber(phone));
  }

  /** A number that already passes the check comes out of formatting unchanged. */
  lemma ValidIsFormatted(phone: string)
    requires ValidatePhoneNumber(phone)
    ensures FormatPhoneNumber(phone) == phone
  {
    assert AllPhoneChars(phone) by {
      forall i | 0 <= i < |phone| ensures IsPhoneChar(phone[i]) {
        if i >= 2 { assert phone[2..][i - 2] == phone[i]; }
      }
    }
    CleanFixpoint(phone);
  }

  /** A formatted number passes the check exactly when the input's digits number 7 to 15, do
      not start with `0`, and the formatted string is nothing but `'+'` and those digits. */
  lemma FormattedValidIff(phone: string)
    ensures ValidatePhoneNumber(FormatPhoneNumber(phone)) <==>
              (&& FormatPhoneNumber(phone) == "+" + Digits(phone)
               && 7 <= |Digits(phone)| <= 15
               && Digits(phone)[0] != '0')
  {
    var r := FormatPhoneNumber(phone);
    if ValidatePhoneNumber(r) {
      ValidateCharacterization(r);
      DigitsAppend([r[0]], r[1..]);
      assert r == [r[0]] + r[1..];
      DigitsOfDigits(r[1..]);
    } else if r == "+" + Digits(phone) {
      ValidateCharacterization(r);
    }
  }

  /** Input without digits formats to a string the check rejects; with no `'+'` either, that
      string is `"+"`. */
  lemma NoDigitsInvalid(phone: string)
    requires Digits(phone) == []
    ensures !ValidatePhoneNumber(FormatPhoneNumber(phone))
    ensures '+' !in phone ==> FormatPhoneNumber(phone) == "+"
  {
    FormattedValidIff(phone);
  }
}

/**
 * The security helpers: the input validators (each regular expression written as a
 * recursive character predicate), the sanitiser, and the stricter subscription
 * validity check, compared with the auth provider's gate.
 */
module Security {
  import opened Wrappers
  import opened Text
  import Seqs
  import opened Auth

  /** A character the email pattern's `[^\s@]` accepts. */
  predicate EmailChar(c: char)
  {
    !IsSpace(c) && c != '@'
  }

  /** `[^\s@]*`: every character is an email character. */
  predicate AllEmailChars(s: string)
  {
    s == [] || (EmailChar(s[0]) && AllEmailChars(s[1..]))
  }

  lemma {:induction false} AllEmailCharsIff(s: string)
    ensures AllEmailChars(s) <==> forall k :: 0 <= k < |s| ==> EmailChar(s[k])
  {
    if s != [] {
      AllEmailCharsIff(s[1..]);
      assert forall k :: 1 <= k < |s| ==> s[k] == s[1..][k - 1];
    }
  }

  /** The index of the first `c` in `s`, or `|s|`. */
  function IndexOf(s: string, c: char): (i: nat)
    ensures i <= |s|
    ensures forall k :: 0 <= k < i ==> s[k] != c
    ensures i < |s| ==> s[i] == c
  {
    if s == [] then 0 else if s[0] == c then 0 else 1 + IndexOf(s[1..], c)
  }

  /** `[^\s@]+\.[^\s@]+` for a string of email characters: a `.` strictly inside it. */
  predicate HasInnerDot(d: string)
  {
    |d| >= 3 && IndexOf(d[1..|d| - 1], '.') < |d| - 2
  }

  /** `/^[^\s@]+@[^\s@]+\.[^\s@]+$/.test(s)`. */
  predicate IsEmail(s: string)
  {
    var at := IndexOf(s, '@');
    0 < at < |s| && AllEmailChars(s[..at]) && AllEmailChars(s[at + 1..]) && HasInnerDot(s[at + 1..])
  }

  /** An accepted email has exactly one `@`, no white space, and a `.` inside the part after the `@`. */
  lemma EmailShape(s: string)
    requires IsEmail(s)
    ensures forall k :: 0 <= k < |s| ==> !IsSpace(s[k])
    ensures exists at :: 0 < at < |s| - 1 && s[at] == '@' && (forall k :: 0 <= k < |s| && k != at ==> s[k] != '@')
                         && exists dot :: at + 1 < dot < |s| - 1 && s[dot] == '.'
  {
    var at := IndexOf(s, '@');
    AllEmailCharsIff(s[..at]);
    AllEmailCharsIff(s[at + 1..]);
    forall k | 0 <= k < |s| ensures !IsSpace(s[k]) && (k != at ==> s[k] != '@') {
      if k < at {
        assert s[k] == s[..at][k];
      } else if k > at {
        assert s[k] == s[at + 1..][k - at - 1];
      }
    }
    var d := s[at + 1..];
    var j := IndexOf(d[1..|d| - 1], '.');
    assert s[at + 2 + j] == d[1..|d| - 1][j];
  }

  /** The shape `EmailShape` gives: no white space, one inner `@`, and a `.` inside the part after it. */
  predicate EmailShaped(s: string)
  {
    && (forall k :: 0 <= k < |s| ==> !IsSpace(s[k]))
    && exists at :: 0 < at < |s| - 1 && s[at] == '@' && (forall k :: 0 <= k < |s| && k != at ==> s[k] != '@')
                    && exists dot :: at + 1 < dot < |s| - 1 && s[dot] == '.'
  }

  /** Every string of that shape is accepted. */
  lemma EmailFromShape(s: string)
    requires EmailShaped(s)
    ensures IsEmail(s)
  {
    var at :| 0 < at < |s| - 1 && s[at] == '@' && (forall k :: 0 <= k < |s| && k != at ==> s[k] != '@')
              && exists dot :: at + 1 < dot < |s| - 1 && s[dot] == '.';
    var dot :| at + 1 < dot < |s| - 1 && s[dot] == '.';
    EmailFromAt(s, at, dot);
  }

  /** The shape, with the positions of the `@` and of a `.` after it given. */
  lemma EmailFromAt(s: string, at: int, dot: int)
    requires 0 < at && at + 1 < dot < |s| - 1 && s[at] == '@' && s[dot] == '.'
    requires forall k :: 0 <= k < |s| ==> !IsSpace(s[k])
    requires forall k :: 0 <= k < |s| && k != at ==> s[k] != '@'
    ensures IsEmail(s)
  {
    assert IndexOf(s, '@') == at;
    EmailCharsSlice(s, 0, at);
    EmailCharsSlice(s, at + 1, |s|);
    var d := s[at + 1..];
    assert s[at + 1..|s|] == d;
    assert d[dot - at - 1] == '.';
    InnerDot(d, dot - at - 1);
  }

  /** A slice of email characters satisfies `[^\s@]*`. */
  lemma EmailCharsSlice(s: string, i: int, j: int)
    requires 0 <= i <= j <= |s|
    requires forall k :: i <= k < j ==> EmailChar(s[k])
    ensures AllEmailChars(s[i..j])
  {
    var t := s[i..j];
    forall k | 0 <= k < |t| ensures EmailChar(t[k]) {
      assert t[k] == s[i + k];
    }
    AllEmailCharsIff(t);
  }

  /** A `.` strictly inside `d` makes it an inner-dot domain. */
  lemma InnerDot(d: string, j: int)
    requires 0 < j < |d| - 1 && d[j] == '.'
    ensures HasInnerDot(d)
  {
    var inner := d[1..|d| - 1];
    assert inner[j - 1] == '.';
  }

  /** The email pattern accepts exactly the strings of that shape. */
  lemma EmailShapeIff(s: string)
    ensures IsEmail(s) <==> EmailShaped(s)
  {
    if IsEmail(s) {
      EmailShape(s);
    }
    if EmailShaped(s) {
      EmailFromShape(s);
    }
  }

  lemma EmailNoSpace(s: string)
    ensures IsEmail(s) ==> forall k :: 0 <= k < |s| ==> !IsSpace(s[k])
  {
    if IsEmail(s) {
      EmailShape(s);
    }
  }

  /** Searching past a prefix that lacks `c`. */
  lemma {:induction false} IndexOfPast(a: string, b: string, c: char)
    requires forall k :: 0 <= k < |a| ==> a[k] != c
    ensures IndexOf(a + b, c) == |a| + IndexOf(b, c)
  {
    if a == [] {
      assert a + b == b;
    } else {
      assert (a + b)[0] == a[0];
      assert (a + b)[1..] == a[1..] + b;
      IndexOfPast(a[1..], b, c);
    }
  }

  /** `local@domain` is accepted when the local part is non-empty email text and the domain has an inner dot. */
  lemma EmailFromParts(local: string, d: string)
    requires local != [] && AllEmailChars(local) && AllEmailChars(d) && HasInnerDot(d)
    ensures IsEmail(local + "@" + d)
  {
    var s := local + ("@" + d);
    assert local + "@" + d == s;
    assert forall k :: 0 <= k < |local| ==> local[k] != '@' by {
      AllEmailCharsIff(local);
    }
    IndexOfPast(local, "@" + d, '@');
    var at := IndexOf(s, '@');
    assert at == |local|;
    assert s[..at] == local;
    assert s[at + 1..] == d;
  }

  /** `name.tld` is an accepted domain when both parts are non-empty email text and `name` has no dot. */
  lemma DomainFromParts(name: string, tld: string)
    requires name != [] && tld != [] && AllEmailChars(name) && AllEmailChars(tld)
    requires forall k :: 0 <= k < |name| ==> name[k] != '.'
    ensures AllEmailChars(name + "." + tld) && HasInnerDot(name + "." + tld)
  {
    AllEmailCharsIff(name);
    AllEmailCharsIff(tld);
    var d := name + "." + tld;
    forall k | 0 <= k < |d| ensures EmailChar(d[k]) {
      if k < |name| {
        assert d[k] == name[k];
      } else if k > |name| {
        assert d[k] == tld[k - |name| - 1];
      }
    }
    AllEmailCharsIff(d);
    var inner := d[1..|d| - 1];
    assert inner == name[1..] + ("." + tld[..|tld| - 1]);
    IndexOfPast(name[1..], "." + tld[..|tld| - 1], '.');
  }

  /** Conversely, `local@name.tld` is accepted whenever its three parts are non-empty email text. */
  lemma EmailIntro(local: string, name: string, tld: string)
    requires local != [] && name != [] && tld != []
    requires AllEmailChars(local) && AllEmailChars(name) && AllEmailChars(tld)
    requires forall k :: 0 <= k < |name| ==> name[k] != '.'
    ensures IsEmail(local + "@" + (name + "." + tld))
  {
    DomainFromParts(name, tld);
    EmailFromParts(local, name + "." + tld);
  }

  /** A character the phone pattern's `[\d\s-()]` accepts. */
  predicate PhoneChar(c: char)
  {
    IsDigit(c) || IsSpace(c) || c == '-' || c == '(' || c == ')'
  }

  /** `[\d\s-()]+`. */
  predicate PhoneChars(s: string)
  {
    |s| > 0 && PhoneChar(s[0]) && (|s| == 1 || PhoneChars(s[1..]))
  }

  lemma {:induction false} PhoneCharsIff(s: string)
    ensures PhoneChars(s) <==> |s| > 0 && forall k :: 0 <= k < |s| ==> PhoneChar(s[k])
  {
    if |s| > 1 {
      PhoneCharsIff(s[1..]);
      assert forall k :: 1 <= k < |s| ==> s[k] == s[1..][k - 1];
    }
  }

  /** `/^\+?[\d\s-()]+$/.test(s)`. */
  predicate IsPhone(s: string)
  {
    PhoneChars(s) || (|s| > 0 && s[0] == '+' && PhoneChars(s[1..]))
  }

  /** An accepted phone is an optional `+` and then one or more digits, spaces, `-`, `(` or `)`, and nothing else. */
  lemma PhoneShape(s: string)
    ensures IsPhone(s) <==>
      (|s| > 0 && forall k :: 0 <= k < |s| ==> PhoneChar(s[k]))
      || (|s| > 1 && s[0] == '+' && forall k :: 1 <= k < |s| ==> PhoneChar(s[k]))
  {
    PhoneCharsIff(s);
    if |s| > 0 {
      PhoneCharsIff(s[1..]);
      assert forall k :: 1 <= k < |s| ==> s[k] == s[1..][k - 1];
    }
  }

  /** `\d+`. */
  predicate Digits(s: string)
  {
    |s| > 0 && IsDigit(s[0]) && (|s| == 1 || Digits(s[1..]))
  }

  /** `/^\d+(\.\d{1,2})?$/.test(s)`: digits, optionally a point and one or two more digits. */
  predicate IsPrice(s: string)
  {
    var dot := IndexOf(s, '.');
    if dot == |s| then Digits(s)
    else Digits(s[..dot]) && 1 <= |s| - dot - 1 <= 2 && Digits(s[dot + 1..])
  }

  lemma {:induction false} DigitsIff(s: string)
    ensures Digits(s) <==> |s| > 0 && forall k :: 0 <= k < |s| ==> IsDigit(s[k])
  {
    if |s| > 1 {
      DigitsIff(s[1..]);
      assert forall k :: 1 <= k < |s| ==> s[k] == s[1..][k - 1];
    }
  }

  /** `\d+\.\d{1,2}` with the point at `i`. */
  predicate DecimalAt(s: string, i: int)
  {
    0 < i < |s| && s[i] == '.' && Digits(s[..i]) && 1 <= |s| - i - 1 <= 2 && Digits(s[i + 1..])
  }

  lemma NoPointInDigits(s: string)
    requires Digits(s)
    ensures IndexOf(s, '.') == |s|
  {
    DigitsIff(s);
  }

  lemma PointOfDecimal(s: string, i: int)
    requires DecimalAt(s, i)
    ensures IndexOf(s, '.') == i
  {
    DigitsIff(s[..i]);
    assert forall k :: 0 <= k < i ==> s[k] == s[..i][k];
  }

  /** An accepted price is one or more digits, or digits, a point and one or two digits; nothing else. */
  lemma PriceShape(s: string)
    ensures IsPrice(s) <==> Digits(s) || exists i :: DecimalAt(s, i)
  {
    var dot := IndexOf(s, '.');
    if Digits(s) {
      NoPointInDigits(s);
    }
    if dot < |s| && IsPrice(s) {
      assert DecimalAt(s, dot);
    }
    if exists i :: DecimalAt(s, i) {
      var i :| DecimalAt(s, i);
      PointOfDecimal(s, i);
    }
  }

  /** The price pattern accepts whole amounts and amounts with one or two decimals. */
  lemma PriceAcceptsExamples()
    ensures IsPrice("500") && IsPrice("12.5") && IsPrice("12.50")
  {
    assert IndexOf("500", '.') == 3;
    assert IndexOf("12.5", '.') == 2;
    assert "12.5"[..2] == "12" && "12.5"[3..] == "5";
    assert IndexOf("12.50", '.') == 2;
    assert "12.50"[..2] == "12" && "12.50"[3..] == "50";
  }

  /** The price pattern rejects three decimals, a missing whole part, a trailing point and the empty text. */
  lemma PriceRejectsExamples()
    ensures !IsPrice("1.234") && !IsPrice(".5") && !IsPrice("5.") && !IsPrice("")
  {
    assert IndexOf("1.234", '.') == 1;
    assert IndexOf(".5", '.') == 0;
    assert ".5"[..0] == "";
    assert IndexOf("5.", '.') == 1;
  }

  /** The default validator: truthy exactly when something other than white space was entered. */
  function ValidateDefault(s: string): (r: bool)
    ensures r <==> exists k :: 0 <= k < |s| && !IsSpace(s[k])
  {
    s != "" && |Trim(s)| > 0
  }

  /** `validateInput(input, type)`: the validator the type names, the default one for any other type. */
  function ValidateInput(input: string, kind: string): (r: bool)
    ensures kind == "email" ==> (r ==> forall k :: 0 <= k < |input| ==> !IsSpace(input[k]))
    ensures kind == "email" ==> (r <==> EmailShaped(input))
    ensures kind == "phone" ==> (r <==>
      (|input| > 0 && forall k :: 0 <= k < |input| ==> PhoneChar(input[k]))
      || (|input| > 1 && input[0] == '+' && forall k :: 1 <= k < |input| ==> PhoneChar(input[k])))
    ensures kind == "price" ==> (r <==> Digits(input) || exists i :: DecimalAt(input, i))
    ensures kind != "email" && kind != "phone" && kind != "price" ==>
      (r <==> exists k :: 0 <= k < |input| && !IsSpace(input[k]))
  {
    EmailNoSpace(input);
    EmailShapeIff(input);
    PhoneShape(input);
    PriceShape(input);
    if kind == "email" then IsEmail(input)
    else if kind == "phone" then IsPhone(input)
    else if kind == "price" then IsPrice(input)
    else ValidateDefault(input)
  }

  /** The value `sanitizeInput` receives: a string, or something else. */
  datatype Input = Str(s: string) | NonString(raw: int)

  /** `s.replace(/[<>]/g, '')`. */
  function RemoveAngles(s: string): (r: string)
    ensures |r| <= |s|
    ensures forall k :: 0 <= k < |r| ==> r[k] != '<' && r[k] != '>'
    ensures multiset(r) <= multiset(s)
  {
    if s == [] then []
    else
      assert s == [s[0]] + s[1..];
      (if s[0] == '<' || s[0] == '>' then [] else [s[0]]) + RemoveAngles(s[1..])
  }

  /** Removal keeps the other characters in order: it distributes over concatenation. */
  lemma {:induction false} RemoveAnglesConcat(a: string, b: string)
    ensures RemoveAngles(a + b) == RemoveAngles(a) + RemoveAngles(b)
  {
    if a == [] {
      assert a + b == b;
    } else {
      var head := if a[0] == '<' || a[0] == '>' then [] else [a[0]];
      assert (a + b)[0] == a[0];
      assert (a + b)[1..] == a[1..] + b;
      assert RemoveAngles(a + b) == head + RemoveAngles(a[1..] + b);
      assert RemoveAngles(a) == head + RemoveAngles(a[1..]);
      RemoveAnglesConcat(a[1..], b);
      Seqs.AppendAssoc(head, RemoveAngles(a[1..]), RemoveAngles(b));
    }
  }

  predicate NotAngle(c: char)
  {
    c != '<' && c != '>'
  }

  /** Removal is the filter that keeps every character other than `<` and `>`, in order. */
  lemma {:induction false} RemoveAnglesIsFilter(s: string)
    ensures RemoveAngles(s) == Seqs.Filter(NotAngle, s)
  {
    if s != [] {
      RemoveAnglesIsFilter(s[1..]);
    }
  }

  /** Text without angle brackets comes back unchanged. */
  lemma {:induction false} RemoveAnglesKeepsPlainText(s: string)
    requires forall k :: 0 <= k < |s| ==> s[k] != '<' && s[k] != '>'
    ensures RemoveAngles(s) == s
  {
    if s != [] {
      RemoveAnglesKeepsPlainText(s[1..]);
    }
  }

  /** `sanitizeInput(input)`: non-strings pass through; strings are trimmed and lose every `<` and `>`. */
  function SanitizeInput(input: Input): (r: Input)
    ensures input.NonString? ==> r == input
    ensures input.Str? ==> r.Str? && |r.s| <= |input.s|
    ensures input.Str? ==> forall k :: 0 <= k < |r.s| ==> r.s[k] != '<' && r.s[k] != '>'
    ensures input.Str? ==> r == Str(RemoveAngles(Trim(input.s)))
  {
    match input
    case NonString(_) => input
    case Str(s) => Str(RemoveAngles(Trim(s)))
  }

  /** Text without angle brackets and without white space at its ends is left as it is. */
  lemma SanitizeOnPlainText(s: string)
    requires forall k :: 0 <= k < |s| ==> s[k] != '<' && s[k] != '>'
    requires s == [] || (!IsSpace(s[0]) && !IsSpace(s[|s| - 1]))
    ensures SanitizeInput(Str(s)) == Str(s)
  {
    TrimOfTrimmed(s);
    RemoveAnglesKeepsPlainText(s);
  }

  /** A string comes back trimmed, with every character other than `<` and `>` kept in order. */
  lemma SanitizeIsTrimmedFilter(s: string)
    ensures SanitizeInput(Str(s)) == Str(Seqs.Filter(NotAngle, Trim(s)))
  {
    RemoveAnglesIsFilter(Trim(s));
  }

  /**
   * `isSubscriptionValid(subscription, now)`: a trial is valid up to its trial end, an
   * active subscription up to its hard end, nothing else is valid.
   */
  function IsSubscriptionValid(sub: Option<Subscription>, now: int): (r: bool)
    ensures sub.None? ==> !r
    ensures sub.Some? && sub.value.status == Trial ==> (r <==> NotAfter(now, sub.value.trialEndDate))
    ensures sub.Some? && sub.value.status == Active ==> (r <==> now <= sub.value.subscriptionEndDate)
    ensures sub.Some? && !(sub.value.status == Trial || sub.value.status == Active) ==> !r
  {
    match sub
    case None => false
    case Some(s) =>
      (s.status == Trial && NotAfter(now, s.trialEndDate))
      || (s.status == Active && now <= s.subscriptionEndDate)
  }

  /** The two checks disagree on a lapsed trial still before its hard end: the gate is open, validity is not. */
  lemma LapsedTrialDisagreement(s: Subscription, now: int)
    requires s.status == Trial && After(now, s.trialEndDate) && now <= s.subscriptionEndDate
    ensures IsSubscriptionActive(Some(s), now) && !IsSubscriptionValid(Some(s), now)
  {
  }

  /** The gate is at least as permissive as validity whenever the trial ends no later than the hard end. */
  lemma ValidImpliesActive(sub: Option<Subscription>, now: int)
    requires sub.Some? && sub.value.trialEndDate.Some? ==> sub.value.trialEndDate.value <= sub.value.subscriptionEndDate
    ensures IsSubscriptionValid(sub, now) ==> IsSubscriptionActive(sub, now)
  {
  }

  /** After the recompute rule has run at `now`, the two checks agree on any record that has a trial end. */
  lemma {:induction false} RecomputedChecksAgree(s: Subscription, now: int)
    requires s.trialEndDate.Some?
    ensures IsSubscriptionValid(Some(Recompute(s, now)), now) == IsSubscriptionActive(Some(Recompute(s, now)), now)
  {
    var r := Recompute(s, now);
    if r.status == Trial {
      assert !After(now, s.trialEndDate);
    }
  }
}

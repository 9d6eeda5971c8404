/** The contact form of src/pages/Contact.tsx: four text fields, a change
    handler that writes one of them, and a submit handler that checks the
    fields are filled, checks the address against the page's e-mail
    pattern, and once the simulated send is over clears the form. The form
    is a class; its handlers are methods. */
module Contact {
  import opened Js

  /** The four inputs, by their `name` attribute (lines 189, 205, 220, 242). */
  datatype Field = Name | Email | Subject | Message

  /** `formData` (lines 7-12). */
  datatype FormData = FormData(name: string, email: string, subject: string, message: string)

  const EmptyForm: FormData := FormData("", "", "", "")

  /** `formData[field]` */
  function Get(f: FormData, field: Field): string
  {
    match field
    case Name => f.name
    case Email => f.email
    case Subject => f.subject
    case Message => f.message
  }

  /** `{ ...prev, [field]: value }` (lines 17-20): the named field takes the
      value and the other three keep theirs. */
  function WithField(f: FormData, field: Field, value: string): (r: FormData)
    ensures Get(r, field) == value
    ensures forall g :: g != field ==> Get(r, g) == Get(f, g)
  {
    match field
    case Name => f.(name := value)
    case Email => f.(email := value)
    case Subject => f.(subject := value)
    case Message => f.(message := value)
  }

  /** The required-field check (line 27): an empty string is falsy. */
  predicate AllFilled(f: FormData)
  {
    f.name != "" && f.email != "" && f.subject != "" && f.message != ""
  }

  // ---------------------------------------------------------------------
  // The e-mail pattern `^[^\s@]+@[^\s@]+\.[^\s@]+$` (line 33)

  /** A character `\s` matches: the ECMAScript white space and line
      terminators (sections 12.2 and 12.3 of ECMA-262), with U+FEFF. */
  predicate IsSpace(c: char)
  {
    c == ' ' || c == '\t' || c == '\n' || c == '\U{000B}' || c == '\U{000C}' || c == '\r'
    || c == '\U{00A0}' || c == '\U{1680}' || ('\U{2000}' <= c <= '\U{200A}')
    || c == '\U{2028}' || c == '\U{2029}' || c == '\U{202F}' || c == '\U{205F}'
    || c == '\U{3000}' || c == '\U{FEFF}'
  }

  /** A character the class `[^\s@]` matches. */
  predicate Plain(c: char)
  {
    !IsSpace(c) && c != '@'
  }

  /** A string every character of which `[^\s@]` matches. */
  predicate AllPlain(s: string)
  {
    forall i :: 0 <= i < |s| ==> Plain(s[i])
  }

  /** The pattern read as a language: the address splits into a local part,
      `@`, a domain head, `.` and a domain tail, each part a non-empty run
      of characters other than white space and `@`. */
  ghost predicate MatchesEmailPattern(e: string)
  {
    exists at, dot :: 0 < at && at + 1 < dot && dot + 1 < |e| && e[at] == '@' && e[dot] == '.'
      && AllPlain(e[..at]) && AllPlain(e[at + 1..dot]) && AllPlain(e[dot + 1..])
  }

  /** The position of the first `c` in `s`, if any. */
  function IndexOf(s: string, c: char): (r: Option<nat>)
    ensures r.Some? ==> r.value < |s| && s[r.value] == c && c !in s[..r.value]
    ensures r.None? ==> c !in s
  {
    if s == [] then None
    else if s[0] == c then Some(0)
    else match IndexOf(s[1..], c)
      case None => None
      case Some(i) =>
        assert s[..i + 1] == [s[0]] + s[1..][..i];
        Some(i + 1)
  }

  /** `emailRegex.test(email)`, computed: the first `@` starts the domain;
      nothing before or after it is white space or another `@`; the local
      part is not empty; and the domain has a `.` that is neither its first
      nor its last character. */
  function ValidEmail(e: string): bool
  {
    match IndexOf(e, '@')
    case None => false
    case Some(at) =>
      var domain := e[at + 1..];
      at > 0 && AllPlain(e[..at]) && AllPlain(domain)
      && |domain| >= 3 && '.' in domain[1..|domain| - 1]
  }

  /** A slice of a plain string is plain. */
  lemma AllPlainSlice(s: string, i: nat, j: nat)
    requires AllPlain(s) && i <= j <= |s|
    ensures AllPlain(s[i..j])
  {
    assert forall k :: 0 <= k < j - i ==> s[i..j][k] == s[i + k];
  }

  /** Two plain strings around a `.` make a plain string. */
  lemma AllPlainAroundDot(a: string, b: string)
    requires AllPlain(a) && AllPlain(b)
    ensures AllPlain(a + ['.'] + b)
  {
    var s := a + ['.'] + b;
    forall k | 0 <= k < |s| ensures Plain(s[k]) {
      if k < |a| {
        assert s[k] == a[k];
      } else if k > |a| {
        assert s[k] == b[k - |a| - 1];
      }
    }
  }

  /** What the computed test accepts, the pattern matches. */
  lemma ValidEmailMatches(e: string)
    requires ValidEmail(e)
    ensures MatchesEmailPattern(e)
  {
    var at := IndexOf(e, '@').value;
    var domain := e[at + 1..];
    var inner := domain[1..|domain| - 1];
    var j :| 0 <= j < |inner| && inner[j] == '.';
    var dot := at + 2 + j;
    assert inner[j] == domain[j + 1] == e[dot];
    assert e[at + 1..dot] == domain[..j + 1];
    assert e[dot + 1..] == domain[j + 2..];
    AllPlainSlice(domain, 0, j + 1);
    AllPlainSlice(domain, j + 2, |domain|);
    assert 0 < at && at + 1 < dot && dot + 1 < |e| && e[at] == '@' && e[dot] == '.';
  }

  /** What the pattern matches, the computed test accepts: the `@` of the
      split is the first one, since the local part has none. */
  lemma MatchesAreValid(e: string, at: nat, dot: nat)
    requires 0 < at && at + 1 < dot && dot + 1 < |e| && e[at] == '@' && e[dot] == '.'
    requires AllPlain(e[..at]) && AllPlain(e[at + 1..dot]) && AllPlain(e[dot + 1..])
    ensures ValidEmail(e)
  {
    assert IndexOf(e, '@') == Some(at);
    var domain := e[at + 1..];
    assert domain == e[at + 1..dot] + ['.'] + e[dot + 1..];
    AllPlainAroundDot(e[at + 1..dot], e[dot + 1..]);
    assert domain[1..|domain| - 1][dot - at - 2] == '.';
  }

  /** The computed test accepts exactly the addresses the pattern matches. */
  lemma ValidEmailIffPattern(e: string)
    ensures ValidEmail(e) <==> MatchesEmailPattern(e)
  {
    if ValidEmail(e) {
      ValidEmailMatches(e);
    }
    if MatchesEmailPattern(e) {
      var at, dot :| 0 < at && at + 1 < dot && dot + 1 < |e| && e[at] == '@' && e[dot] == '.'
        && AllPlain(e[..at]) && AllPlain(e[at + 1..dot]) && AllPlain(e[dot + 1..]);
      MatchesAreValid(e, at, dot);
    }
  }

  /** The computed test starts the domain at the first `@`, wherever the
      caller found it. */
  lemma FirstAt(e: string, at: nat)
    requires at < |e| && e[at] == '@' && '@' !in e[..at]
    ensures IndexOf(e, '@') == Some(at)
  {
  }

  /** An address with white space anywhere is refused. */
  lemma SpaceRefused(e: string, i: nat)
    requires i < |e| && IsSpace(e[i])
    ensures !ValidEmail(e)
  {
    match IndexOf(e, '@')
    case None =>
    case Some(at) =>
      if i < at {
        assert e[..at][i] == e[i];
      } else if i > at {
        assert e[at + 1..][i - at - 1] == e[i];
      }
  }

  /** An address with two `@` is refused, wherever they stand. */
  lemma SecondAtRefused(e: string, i: nat, j: nat)
    requires i < j < |e| && e[i] == '@' && e[j] == '@'
    ensures !ValidEmail(e)
  {
    var at := IndexOf(e, '@').value;
    assert e[at + 1..][j - at - 1] == '@';
  }

  /** An address whose domain, after the first `@`, has no `.` with a
      character on each side is refused. */
  lemma DomainWithoutInnerDotRefused(e: string, at: nat)
    requires at < |e| && e[at] == '@' && '@' !in e[..at]
    requires forall k :: at + 1 < k < |e| - 1 ==> e[k] != '.'
    ensures !ValidEmail(e)
  {
    FirstAt(e, at);
  }

  // ---------------------------------------------------------------------
  // Submitting

  /** What the submit handler decides. */
  datatype Verdict = MissingFields | InvalidEmail | Accepted

  /** The two checks of `handleSubmit` (lines 27-37), in order. */
  function Check(f: FormData): Verdict
  {
    if !AllFilled(f) then MissingFields
    else if !ValidEmail(f.email) then InvalidEmail
    else Accepted
  }

  /** A form is accepted exactly when every field is filled and the address
      matches the pattern. An empty field is reported even when the address
      is also bad: the required check comes first. */
  lemma CheckSpec(f: FormData)
    ensures Check(f) == Accepted <==> AllFilled(f) && MatchesEmailPattern(f.email)
    ensures Check(f) == MissingFields <==> exists g :: Get(f, g) == ""
    ensures Check(f) == InvalidEmail <==> AllFilled(f) && !MatchesEmailPattern(f.email)
  {
    ValidEmailIffPattern(f.email);
    if !AllFilled(f) {
      if f.name == "" { assert Get(f, Name) == ""; }
      else if f.email == "" { assert Get(f, Email) == ""; }
      else if f.subject == "" { assert Get(f, Subject) == ""; }
      else { assert Get(f, Message) == ""; }
    }
  }

  /** The cleared form fails the required check, so submitting it again
      right after a send does nothing. */
  lemma ClearedFormIsRejected()
    ensures Check(EmptyForm) == MissingFields
  {
  }

  /** The page's state cells, and the sends whose simulated delay (line 42)
      has not yet elapsed. */
  class ContactForm {
    var formData: FormData
    var isSubmitting: bool
    var pendingSends: nat

    constructor ()
      ensures formData == EmptyForm && !isSubmitting && pendingSends == 0
    {
      formData := EmptyForm;
      isSubmitting := false;
      pendingSends := 0;
    }

    /** `handleInputChange` (lines 15-21). */
    method HandleInputChange(field: Field, value: string)
      modifies this
      ensures formData == WithField(old(formData), field, value)
      ensures isSubmitting == old(isSubmitting) && pendingSends == old(pendingSends)
    {
      formData := WithField(formData, field, value);
    }

    /** `handleSubmit` up to its delay (lines 23-42): a rejected form changes
        nothing; an accepted one raises `isSubmitting` and starts a send. */
    method HandleSubmit() returns (verdict: Verdict)
      modifies this
      ensures verdict == Check(old(formData))
      ensures formData == old(formData)
      ensures verdict != Accepted ==> isSubmitting == old(isSubmitting) && pendingSends == old(pendingSends)
      ensures verdict == Accepted ==> isSubmitting && pendingSends == old(pendingSends) + 1
    {
      if formData.name == "" || formData.email == "" || formData.subject == "" || formData.message == "" {
        return MissingFields;
      }
      if !ValidEmail(formData.email) {
        return InvalidEmail;
      }
      isSubmitting := true;
      pendingSends := pendingSends + 1;
      return Accepted;
    }

    /** The rest of `handleSubmit` once the delay has elapsed (lines 44-54):
        every field is cleared, including what was typed during the delay,
        and `isSubmitting` drops. */
    method SendCompleted()
      requires pendingSends > 0
      modifies this
      ensures formData == EmptyForm && !isSubmitting
      ensures pendingSends == old(pendingSends) - 1
    {
      formData := EmptyForm;
      isSubmitting := false;
      pendingSends := pendingSends - 1;
    }
  }
}

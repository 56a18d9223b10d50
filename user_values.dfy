/**
 * Value objects of the user domain (src/domain/users/value_objects.py):
 * `UserId`, which only checks that it wraps a UUID, and `Email`, whose
 * validation is the regular expression
 *   ^[a-zA-Z0-9._%+-]+@[a-zA-Z0-9.-]+\.[a-zA-Z]{2,}$
 * applied with `re.match`. The expression is stated here as a predicate over
 * character classes; `$` in Python also matches just before a final newline,
 * which `RegexMatches` keeps and `AddressForm` does not.
 */
module UserValues {
  import opened Common
  import opened Events

  /** `UserId(value)`: anything but a UUID object is rejected. */
  function NewUserId(v: PyValue): (r: Result<Uuid>)
    ensures r.Ok? <==> v.PyUuid?
    ensures r.Ok? ==> r.value == v.u
    ensures r.Err? ==> r.error == ValueError(NotAUuid)
  {
    if v.PyUuid? then Ok(v.u) else Err(ValueError(NotAUuid))
  }

  /** A frozen dataclass: equal exactly when the strings are, and `str(e)` is the string. */
  datatype Email = Email(value: string)

  predicate IsAsciiLetter(c: char) { 'a' <= c <= 'z' || 'A' <= c <= 'Z' }

  predicate IsAsciiAlnum(c: char) { IsAsciiLetter(c) || '0' <= c <= '9' }

  /** `[a-zA-Z0-9._%+-]` */
  predicate IsLocalChar(c: char) {
    IsAsciiAlnum(c) || c == '.' || c == '_' || c == '%' || c == '+' || c == '-'
  }

  /** `[a-zA-Z0-9.-]` */
  predicate IsDomainChar(c: char) { IsAsciiAlnum(c) || c == '.' || c == '-' }

  /** `[a-zA-Z0-9._%+-]+` */
  predicate LocalPart(s: string) {
    |s| > 0 && forall k :: 0 <= k < |s| ==> IsLocalChar(s[k])
  }

  /** `[a-zA-Z0-9.-]+` */
  predicate DomainChars(s: string) {
    |s| > 0 && forall k :: 0 <= k < |s| ==> IsDomainChar(s[k])
  }

  /** `[a-zA-Z]{2,}` */
  predicate TopLevel(s: string) {
    |s| >= 2 && forall k :: 0 <= k < |s| ==> IsAsciiLetter(s[k])
  }

  /** `[a-zA-Z0-9.-]+\.[a-zA-Z]{2,}`: some dot splits the domain into labels and
      a final run of at least two letters (backtracking may choose any dot). */
  predicate DomainPart(s: string) {
    exists j :: 1 <= j < |s| && s[j] == '.' && DomainChars(s[..j]) && TopLevel(s[j + 1..])
  }

  /** The whole string is `local@domain` in the shape above. */
  predicate AddressForm(s: string) {
    exists i :: 0 < i < |s| && s[i] == '@' && LocalPart(s[..i]) && DomainPart(s[i + 1..])
  }

  /** What `re.match(pattern, s)` accepts: `$` matches at the end or before a
      final newline. */
  predicate RegexMatches(s: string) {
    AddressForm(s) || (|s| > 0 && s[|s| - 1] == '\n' && AddressForm(s[..|s| - 1]))
  }

  /** `Email(value)` as written: empty first, then the pattern. */
  function NewEmailAsWritten(v: string): (r: Result<Email>)
    ensures r.Ok? <==> RegexMatches(v)
    ensures r.Ok? ==> r.value == Email(v)
    ensures v == [] ==> r == Err(ValueError(EmptyEmail))
    ensures v != [] && !RegexMatches(v) ==> r == Err(ValueError(BadEmailFormat))
  {
    if v == [] then Err(ValueError(EmptyEmail))
    else if !RegexMatches(v) then Err(ValueError(BadEmailFormat))
    else Ok(Email(v))
  }

  /** `Email(value)` with the pattern anchored at the very end of the string. */
  function NewEmail(v: string): (r: Result<Email>)
    ensures r.Ok? <==> AddressForm(v)
    ensures r.Ok? ==> r.value == Email(v)
    ensures v == [] ==> r == Err(ValueError(EmptyEmail))
    ensures v != [] && !AddressForm(v) ==> r == Err(ValueError(BadEmailFormat))
  {
    if v == [] then Err(ValueError(EmptyEmail))
    else if !AddressForm(v) then Err(ValueError(BadEmailFormat))
    else Ok(Email(v))
  }

  /** An accepted address ends in an ASCII letter. */
  lemma AddressEndsInLetter(s: string)
    ensures AddressForm(s) ==> IsAsciiLetter(s[|s| - 1])
  {
    if AddressForm(s) {
      var i :| 0 < i < |s| && s[i] == '@' && LocalPart(s[..i]) && DomainPart(s[i + 1..]);
      var d := s[i + 1..];
      DomainEndsInLetters(d);
      assert d[|d| - 1] == s[|s| - 1];
    }
  }

  /** A domain ends in its final label of at least two letters. */
  lemma DomainEndsInLetters(d: string)
    requires DomainPart(d)
    ensures |d| >= 4 && IsAsciiLetter(d[|d| - 1]) && IsAsciiLetter(d[|d| - 2])
  {
    var j :| 1 <= j < |d| && d[j] == '.' && DomainChars(d[..j]) && TopLevel(d[j + 1..]);
    var t := d[j + 1..];
    assert t[|t| - 1] == d[|d| - 1] && t[|t| - 2] == d[|d| - 2];
  }

  /** No character of a domain is `@`. */
  lemma DomainHasNoAt(d: string)
    requires DomainPart(d)
    ensures forall m :: 0 <= m < |d| ==> d[m] != '@'
  {
    var j :| 1 <= j < |d| && d[j] == '.' && DomainChars(d[..j]) && TopLevel(d[j + 1..]);
    forall m | 0 <= m < |d| ensures d[m] != '@' {
      if m < j {
        assert d[..j][m] == d[m];
      } else if m > j {
        assert d[j + 1..][m - (j + 1)] == d[m];
      }
    }
  }

  /** The `@` that splits an accepted address is its only one. */
  lemma OnlyAt(s: string, i: nat)
    requires 0 < i < |s| && s[i] == '@' && LocalPart(s[..i]) && DomainPart(s[i + 1..])
    ensures forall k :: 0 <= k < |s| && s[k] == '@' ==> k == i
  {
    var d := s[i + 1..];
    DomainHasNoAt(d);
    forall k | 0 <= k < |s| && k != i ensures s[k] != '@' {
      if k < i {
        assert s[..i][k] == s[k];
      } else {
        assert d[k - (i + 1)] == s[k];
      }
    }
  }

  /** An accepted address has exactly one `@`, with a non-empty local part before
      it, and ends in a final label of at least two letters. */
  lemma AddressShape(s: string)
    requires AddressForm(s)
    ensures exists i :: 0 < i < |s| && s[i] == '@'
                        && (forall k :: 0 <= k < |s| && s[k] == '@' ==> k == i)
    ensures IsAsciiLetter(s[|s| - 1]) && IsAsciiLetter(s[|s| - 2])
  {
    var i :| 0 < i < |s| && s[i] == '@' && LocalPart(s[..i]) && DomainPart(s[i + 1..]);
    var d := s[i + 1..];
    OnlyAt(s, i);
    DomainEndsInLetters(d);
    assert d[|d| - 1] == s[|s| - 1] && d[|d| - 2] == s[|s| - 2];
  }

  /** As written, appending a newline to any accepted address is accepted too,
      although no address ends in a newline. */
  lemma TrailingNewlineAccepted(s: string)
    requires AddressForm(s)
    ensures NewEmailAsWritten(s + "\n") == Ok(Email(s + "\n"))
    ensures NewEmail(s + "\n") == Err(ValueError(BadEmailFormat))
  {
    var t := s + "\n";
    assert t[..|t| - 1] == s;
    AddressEndsInLetter(t);
  }

  /** A concrete address that shows it. */
  lemma TrailingNewlineExample()
    ensures NewEmailAsWritten("a@b.co\n").Ok?
    ensures NewEmail("a@b.co\n").Err?
  {
    var s := "a@b.co";
    var d := s[2..];
    assert d[1] == '.' && d[..1] == "b" && d[2..] == "co";
    assert DomainPart(d);
    assert s[..1] == "a";
    assert AddressForm(s);
    assert s + "\n" == "a@b.co\n";
    TrailingNewlineAccepted(s);
  }
}

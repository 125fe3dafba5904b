/** Name, password and e-mail checks. Each regular expression is a character class and a length range. */
module Validation {
  import opened Text

  predicate IsLower(c: char) { 'a' <= c <= 'z' }

  predicate IsUpper(c: char) { 'A' <= c <= 'Z' }

  predicate IsLetter(c: char) { IsLower(c) || IsUpper(c) }

  predicate IsAlnum(c: char) { IsLetter(c) || IsDigit(c) }

  // ------------------------------------------------------------ names and passwords

  predicate ValidateName(name: string) {
    && 8 <= |name| <= 32
    && (forall i :: 0 <= i < |name| ==> IsAlnum(name[i]) || name[i] == '_')
    && IsLetter(name[0])
  }

  predicate PasswordChar(c: char) {
    IsAlnum(c) || c == '_' || c == '@' || c == '$' || c == '#' || c == ':' || c == '&' || c == '%'
  }

  // Inside a character class '!' is itself and a '^' that is not first is itself too, so each of the four
  // searches below also accepts those two characters.
  predicate Bang(c: char) { c == '!' || c == '^' }

  predicate ListedSymbol(c: char) { c == '@' || c == '|' || c == '%' || c == '$' || c == '#' || c == '&' }

  predicate ValidatePassword(password: string) {
    && 12 <= |password| <= 32
    && (forall i :: 0 <= i < |password| ==> PasswordChar(password[i]))
    && (exists i :: 0 <= i < |password| && (Bang(password[i]) || IsDigit(password[i])))
    && (exists i :: 0 <= i < |password| && (Bang(password[i]) || IsLower(password[i])))
    && (exists i :: 0 <= i < |password| && (Bang(password[i]) || IsUpper(password[i])))
    && (exists i :: 0 <= i < |password| && (Bang(password[i]) || ListedSymbol(password[i])))
  }

  predicate IsHexDigit(c: char) { IsDigit(c) || 'A' <= c <= 'F' }

  predicate ValidatePasswordSha256(hash: string) {
    |hash| == 64 && forall i :: 0 <= i < 64 ==> IsHexDigit(hash[i])
  }

  // The checksum is a parameter of every operation that uses it.
  type Digest = string -> string

  // A SHA-256 checksum prints as 64 upper-case hexadecimal digits; nothing else is used about it.
  ghost predicate HexShaped(hash: Digest) {
    forall s :: ValidatePasswordSha256(hash(s))
  }

  // ------------------------------------------------------------------------ e-mail

  // `atext` of section 3.2.3 of RFC 5322.
  predicate Atext(c: char) {
    || IsAlnum(c) || c == '!' || c == '#' || c == '$' || c == '%' || c == '&' || c == '\'' || c == '*'
    || c == '+' || c == '-' || c == '/' || c == '=' || c == '?' || c == '^' || c == '_' || c == '`'
    || c == '{' || c == '|' || c == '}' || c == '~'
  }

  function Count(s: string, c: char): nat {
    if s == "" then 0 else (if s[0] == c then 1 else 0) + Count(s[1..], c)
  }

  // `strings.Cut`: the text before the first separator and the text after it.
  function Cut(s: string, sep: char): (string, string) {
    if s == "" then ("", "")
    else if s[0] == sep then ("", s[1..])
    else var (before, after) := Cut(s[1..], sep); ([s[0]] + before, after)
  }

  predicate LocalChar(c: char) { Atext(c) || c == '.' }

  // The checks on the local part, in the order the code makes them.
  predicate LocalPartOk(part: string) {
    && !(part != "" && part[0] == '.')
    && !(part != "" && part[|part| - 1] == '.')
    && (forall i :: 0 <= i < |part| - 1 && part[i] == '.' ==> part[i + 1] != '.')
    && 1 <= |part| <= 64
    && forall i :: 0 <= i < |part| ==> LocalChar(part[i])
  }

  predicate DomainChar(c: char) {
    IsAlnum(c) || c == '-' || c == '[' || c == ']' || c == ':' || c == '.'
  }

  predicate DomainPartOk(domain: string) {
    && !(domain != "" && domain[0] == '-')
    && !(domain != "" && domain[|domain| - 1] == '-')
    && 1 <= |domain| && (forall i :: 0 <= i < |domain| ==> DomainChar(domain[i]))
    && !(domain[0] == '[' && domain[|domain| - 1] != ']')
  }

  predicate ValidateEmail(email: string) {
    && Count(email, '@') == 1
    && var (localPart, domainPart) := Cut(email, '@');
       LocalPartOk(localPart) && DomainPartOk(domainPart)
  }

  // ------------------------------------------------------------- the public grammars

  predicate Atom(a: string) {
    a != "" && forall i :: 0 <= i < |a| ==> Atext(a[i])
  }

  predicate Atoms(atoms: seq<string>) {
    |atoms| >= 1 && forall k :: 0 <= k < |atoms| ==> Atom(atoms[k])
  }

  // dot-atom-text = 1*atext *("." 1*atext), section 3.2.3 of RFC 5322.
  ghost predicate DotAtomText(s: string) {
    exists atoms :: Atoms(atoms) && Join(atoms, '.') == s
  }

  predicate Ldh(c: char) { IsAlnum(c) || c == '-' }

  // A label of section 3.5 of RFC 1034, which section 2.1 of RFC 1123 lets begin with a digit.
  predicate DomainLabel(l: string) {
    && 1 <= |l| <= 63
    && (forall i :: 0 <= i < |l| ==> Ldh(l[i]))
    && IsAlnum(l[0]) && IsAlnum(l[|l| - 1])
  }

  predicate DomainLabels(labels: seq<string>) {
    |labels| >= 1 && forall k :: 0 <= k < |labels| ==> DomainLabel(labels[k])
  }

  ghost predicate HostName(s: string) {
    exists labels :: DomainLabels(labels) && Join(labels, '.') == s
  }

  // ------------------------------------------------------------------------- proofs

  predicate NoDoubleDot(s: string) {
    forall i :: 0 <= i < |s| - 1 && s[i] == '.' ==> s[i + 1] != '.'
  }

  predicate LocalChars(s: string) {
    forall i :: 0 <= i < |s| ==> LocalChar(s[i])
  }

  // Splitting a text of local characters at its dots yields atoms, unless a dot leads, ends or doubles.
  lemma {:induction false} SplitIntoAtoms(s: string)
    requires s != "" && LocalChars(s) && s[|s| - 1] != '.' && NoDoubleDot(s)
    ensures s[0] != '.' ==> Atoms(Split(s, '.'))
    ensures s[0] == '.' ==> Atoms(Split(s, '.')[1..]) && Split(s, '.')[0] == ""
  {
    if |s| == 1 {
      assert Split(s[1..], '.') == [""];
      assert Split(s, '.')[0] == [s[0]];
    } else {
      assert NoDoubleDot(s[1..]) by {
        forall i | 0 <= i < |s[1..]| - 1 && s[1..][i] == '.' ensures s[1..][i + 1] != '.' {
          assert s[i + 1] == '.';
        }
      }
      SplitIntoAtoms(s[1..]);
      var rest := Split(s[1..], '.');
      if s[0] == '.' {
        assert s[1] != '.';
        assert Split(s, '.')[1..] == rest;
      } else {
        var words := [[s[0]] + rest[0]] + rest[1..];
        assert Atom(words[0]);
        forall k | 0 <= k < |words| ensures Atom(words[k]) {
          if k > 0 {
            assert words[k] == rest[1..][k - 1] == rest[k];
          }
        }
      }
    }
  }

  lemma {:induction false} JoinAtoms(atoms: seq<string>)
    requires Atoms(atoms)
    ensures var s := Join(atoms, '.');
      s != "" && LocalChars(s) && s[0] != '.' && s[|s| - 1] != '.' && NoDoubleDot(s)
  {
    if |atoms| == 1 {
      assert Atom(atoms[0]);
    } else {
      JoinAtoms(atoms[1..]);
      assert Atom(atoms[0]);
      var head, tail := atoms[0], Join(atoms[1..], '.');
      var s := head + "." + tail;
      forall i | 0 <= i < |s| - 1 && s[i] == '.' ensures s[i + 1] != '.' {
        if i > |head| {
          assert s[i] == tail[i - |head| - 1] && s[i + 1] == tail[i - |head|];
        }
      }
      assert s[|s| - 1] == tail[|tail| - 1];
    }
  }

  // The prefix, suffix, scan-loop and regular-expression checks together are exactly dot-atom-text of at
  // most 64 octets.
  lemma LocalPartIsDotAtom(s: string)
    ensures LocalPartOk(s) <==> DotAtomText(s) && |s| <= 64
  {
    if LocalPartOk(s) {
      SplitIntoAtoms(s);
      JoinSplit(s, '.');
    }
    if DotAtomText(s) {
      var atoms :| Atoms(atoms) && Join(atoms, '.') == s;
      JoinAtoms(atoms);
    }
  }

  lemma {:induction false} HostNameChars(labels: seq<string>)
    requires DomainLabels(labels)
    ensures var s := Join(labels, '.');
      s != "" && (forall i :: 0 <= i < |s| ==> Ldh(s[i]) || s[i] == '.') && IsAlnum(s[0]) && IsAlnum(s[|s| - 1])
  {
    assert DomainLabel(labels[0]);
    if |labels| > 1 {
      HostNameChars(labels[1..]);
      var s, tail := Join(labels, '.'), Join(labels[1..], '.');
      assert s[|s| - 1] == tail[|tail| - 1];
    }
  }

  // Every host name passes the domain check. The converse fails: see LooseDomain and, for when exactly,
  // AcceptedDomainIsHostNameExactly.
  lemma HostNameAccepted(domain: string)
    requires HostName(domain)
    ensures DomainPartOk(domain)
  {
    var labels :| DomainLabels(labels) && Join(labels, '.') == domain;
    HostNameChars(labels);
  }

  lemma {:induction false} HostNameIsSplit(s: string)
    ensures HostName(s) <==> DomainLabels(Split(s, '.'))
  {
    if DomainLabels(Split(s, '.')) {
      JoinSplit(s, '.');
    }
    if labels :| DomainLabels(labels) && Join(labels, '.') == s {
      forall k | 0 <= k < |labels| ensures '.' !in labels[k] {
        assert DomainLabel(labels[k]);
      }
      SplitJoin(labels, '.');
    }
  }

  lemma LooseDomain()
    ensures DomainPartOk("a..b") && !HostName("a..b")
  {
    HostNameIsSplit("a..b");
    assert Split("a..b"[1..], '.')[0] == "";
    assert Split("a..b"[1..], '.')[1] == "";
    assert !DomainLabel(Split("a..b", '.')[1]);
  }

  // Every dot stands between two letters or digits.
  predicate DotsFlanked(s: string) {
    forall i :: 0 <= i < |s| && s[i] == '.' ==> 0 < i < |s| - 1 && IsAlnum(s[i - 1]) && IsAlnum(s[i + 1])
  }

  predicate ShortLabels(s: string) {
    forall k :: 0 <= k < |Split(s, '.')| ==> |Split(s, '.')[k]| <= 63
  }

  predicate LdhOrDot(s: string) {
    forall i :: 0 <= i < |s| ==> Ldh(s[i]) || s[i] == '.'
  }

  predicate WellDotted(s: string) {
    s != "" && LdhOrDot(s) && IsAlnum(s[0]) && IsAlnum(s[|s| - 1]) && DotsFlanked(s) && ShortLabels(s)
  }

  lemma {:induction false} LabelsExactly(s: string)
    ensures DomainLabels(Split(s, '.')) <==> WellDotted(s)
    decreases |s|
  {
    if '.' in s {
      CutSplits(s, '.');
      var (w, tail) := Cut(s, '.');
      SplitCons(w, tail, '.');
      LabelsExactly(tail);
      if WellDotted(s) {
        TakeFirstLabel(s, w, tail);
      }
      if DomainLabel(w) && WellDotted(tail) {
        PutFirstLabel(s, w, tail);
      }
      assert DomainLabels(Split(s, '.')) <==> DomainLabel(w) && DomainLabels(Split(tail, '.')) by {
        assert Split(s, '.')[0] == w && Split(s, '.')[1..] == Split(tail, '.');
        assert forall k :: 0 <= k < |Split(tail, '.')| ==> Split(tail, '.')[k] == Split(s, '.')[k + 1];
      }
    } else {
      SplitWord(s, '.');
      assert Split(s, '.')[0] == s;
      assert forall i :: 0 <= i < |s| ==> s[i] != '.';
      assert DomainLabel(s) <==> WellDotted(s);
    }
  }

  lemma {:induction false} TakeFirstLabel(s: string, w: string, tail: string)
    requires '.' !in w && s == w + ['.'] + tail && Split(s, '.') == [w] + Split(tail, '.')
    requires WellDotted(s)
    ensures DomainLabel(w) && WellDotted(tail)
  {
    assert s[|w|] == '.';
    assert Split(s, '.')[0] == w;
    assert forall k :: 0 <= k < |Split(tail, '.')| ==> Split(tail, '.')[k] == Split(s, '.')[k + 1];
    assert forall i :: 0 <= i < |w| ==> w[i] == s[i] && w[i] != '.';
    assert forall i :: 0 <= i < |tail| ==> tail[i] == s[|w| + 1 + i];
    assert tail[0] == s[|w| + 1] && tail[|tail| - 1] == s[|s| - 1];
    forall i | 0 <= i < |tail| && tail[i] == '.'
      ensures 0 < i < |tail| - 1 && IsAlnum(tail[i - 1]) && IsAlnum(tail[i + 1])
    {
      assert s[|w| + 1 + i] == '.';
      assert i > 0;
      assert tail[i - 1] == s[|w| + i] && tail[i + 1] == s[|w| + 2 + i];
    }
  }

  lemma {:induction false} PutFirstLabel(s: string, w: string, tail: string)
    requires '.' !in w && s == w + ['.'] + tail && Split(s, '.') == [w] + Split(tail, '.')
    requires DomainLabel(w) && WellDotted(tail)
    ensures WellDotted(s)
  {
    forall i | 0 <= i < |s| && s[i] == '.'
      ensures 0 < i < |s| - 1 && IsAlnum(s[i - 1]) && IsAlnum(s[i + 1])
    {
      if i > |w| {
        var j := i - |w| - 1;
        assert tail[j] == '.' && s[i - 1] == tail[j - 1] && s[i + 1] == tail[j + 1];
      } else {
        assert i == |w| && s[i - 1] == w[|w| - 1] && s[i + 1] == tail[0];
      }
    }
  }

  // The domain check also takes domains that are no host names, and exactly this tells them apart: brackets
  // and colons, a dot at an end or next to another dot or a hyphen, and labels of more than 63 characters.
  lemma {:induction false} AcceptedDomainIsHostNameExactly(d: string)
    requires DomainPartOk(d)
    ensures HostName(d) <==>
      && (forall i :: 0 <= i < |d| ==> d[i] != '[' && d[i] != ']' && d[i] != ':')
      && d[0] != '.' && d[|d| - 1] != '.'
      && (forall i :: 0 <= i < |d| - 1 ==>
            !(d[i] == '.' && d[i + 1] == '.') && !(d[i] == '.' && d[i + 1] == '-') && !(d[i] == '-' && d[i + 1] == '.'))
      && (forall k :: 0 <= k < |Split(d, '.')| ==> |Split(d, '.')[k]| <= 63)
  {
    HostNameIsSplit(d);
    LabelsExactly(d);
    if WellDotted(d) {
      forall i | 0 <= i < |d| - 1
        ensures !(d[i] == '.' && d[i + 1] == '.') && !(d[i] == '.' && d[i + 1] == '-') && !(d[i] == '-' && d[i + 1] == '.')
      {
      }
    } else if LdhOrDot(d) && ShortLabels(d) && d[0] != '.' && d[|d| - 1] != '.' {
      var i :| 0 <= i < |d| && d[i] == '.' && !(0 < i < |d| - 1 && IsAlnum(d[i - 1]) && IsAlnum(d[i + 1]));
      assert d[i - 1] == '.' || d[i - 1] == '-' || d[i + 1] == '.' || d[i + 1] == '-';
      assert d[i - 1 + 1] == '.';
    }
  }

  lemma {:induction false} CutAtFirst(before: string, after: string, sep: char)
    requires sep !in before
    ensures Cut(before + [sep] + after, sep) == (before, after)
    ensures Count(before + [sep] + after, sep) == 1 + Count(after, sep)
  {
    var s := before + [sep] + after;
    if before == "" {
      assert s[1..] == after;
    } else {
      assert s[1..] == before[1..] + [sep] + after;
      CutAtFirst(before[1..], after, sep);
      assert [before[0]] + before[1..] == before;
    }
  }

  lemma {:induction false} CountNone(s: string, c: char)
    ensures Count(s, c) == 0 <==> c !in s
  {
    if s != "" {
      CountNone(s[1..], c);
      assert s == [s[0]] + s[1..];
    }
  }

  lemma {:induction false} CutSplits(s: string, sep: char)
    requires sep in s
    ensures var (before, after) := Cut(s, sep); sep !in before && s == before + [sep] + after
  {
    if s[0] != sep {
      assert s == [s[0]] + s[1..];
      CutSplits(s[1..], sep);
    }
  }

  // An address is accepted exactly when it is `local@domain` with a dot-atom-text local part of at most
  // 64 octets and a domain the domain check takes; `@` occurs nowhere else.
  lemma EmailExact(email: string)
    ensures ValidateEmail(email) <==>
      exists l, d :: email == l + "@" + d && DotAtomText(l) && |l| <= 64 && DomainPartOk(d)
  {
    CountNone(email, '@');
    if ValidateEmail(email) {
      CutSplits(email, '@');
      LocalPartIsDotAtom(Cut(email, '@').0);
      assert email == Cut(email, '@').0 + "@" + Cut(email, '@').1;
    }
    if l, d :| email == l + "@" + d && DotAtomText(l) && |l| <= 64 && DomainPartOk(d) {
      LocalPartIsDotAtom(l);
      CutAtFirst(l, d, '@');
      CountNone(d, '@');
    }
  }

  // Mailboxes at ordinary host names are always accepted.
  lemma MailboxAccepted(l: string, d: string)
    requires DotAtomText(l) && |l| <= 64 && HostName(d)
    ensures ValidateEmail(l + "@" + d)
  {
    HostNameAccepted(d);
    EmailExact(l + "@" + d);
  }

  // What the five patterns are after.
  predicate StrongPassword(p: string) {
    && 12 <= |p| <= 32
    && (forall i :: 0 <= i < |p| ==> 'a' <= p[i] <= 'z' || 'A' <= p[i] <= 'Z' || '0' <= p[i] <= '9' || p[i] in "_@$#:&%")
    && (exists i :: 0 <= i < |p| && '0' <= p[i] <= '9')
    && (exists i :: 0 <= i < |p| && 'a' <= p[i] <= 'z')
    && (exists i :: 0 <= i < |p| && 'A' <= p[i] <= 'Z')
    && (exists i :: 0 <= i < |p| && p[i] in "@%$#&")
  }

  // A letter, then 7 to 31 letters, digits and underscores.
  lemma NamePolicy(name: string)
    ensures ValidateName(name) <==>
      exists c, rest ::
        && name == [c] + rest && ('a' <= c <= 'z' || 'A' <= c <= 'Z')
        && 7 <= |rest| <= 31 && WordChars(rest)
  {
    if ValidateName(name) {
      assert name == [name[0]] + name[1..] && WordChars(name[1..]);
    }
  }

  predicate WordChars(s: string) {
    forall i :: 0 <= i < |s| ==> 'a' <= s[i] <= 'z' || 'A' <= s[i] <= 'Z' || '0' <= s[i] <= '9' || s[i] == '_'
  }

  // Address literals: what is in brackets may be letters, digits, hyphens, colons and dots in any arrangement,
  // and an opening bracket in front must be closed at the end.
  lemma AddressLiterals(body: string)
    requires forall i :: 0 <= i < |body| ==> IsAlnum(body[i]) || body[i] in "-:."
    ensures DomainPartOk("[" + body + "]") && !HostName("[" + body + "]")
    ensures !DomainPartOk("[" + body)
  {
    var d := "[" + body + "]";
    assert d[0] == '[' && d[|d| - 1] == ']';
    assert forall i :: 0 <= i < |d| ==> d[i] == '[' || d[i] == ']' || d[i] in body;
    assert ("[" + body)[0] == '[';
    if HostName(d) {
      var labels :| DomainLabels(labels) && Join(labels, '.') == d;
      HostNameChars(labels);
    }
  }

  // A hash is accepted exactly when it is 64 characters of these sixteen.
  lemma HashPolicy(hash: string)
    ensures ValidatePasswordSha256(hash) <==>
      |hash| == 64 && forall i :: 0 <= i < |hash| ==> hash[i] in "0123456789ABCDEF"
  {
    forall c: char ensures IsHexDigit(c) <==> c in "0123456789ABCDEF" {
      var digits := "0123456789ABCDEF";
      if IsDigit(c) {
        assert digits[c as int - '0' as int] == c;
      } else if 'A' <= c <= 'F' {
        assert digits[c as int - 'A' as int + 10] == c;
      }
    }
  }

  // The password searches restricted by the main class: '!', '^' and '|' can never be the character found,
  // and neither '_' nor ':' counts as the required symbol.
  lemma PasswordPolicy(p: string)
    ensures ValidatePassword(p) <==> StrongPassword(p)
  {
    if ValidatePassword(p) {
      var d :| 0 <= d < |p| && (Bang(p[d]) || IsDigit(p[d]));
      var l :| 0 <= l < |p| && (Bang(p[l]) || IsLower(p[l]));
      var u :| 0 <= u < |p| && (Bang(p[u]) || IsUpper(p[u]));
      var s :| 0 <= s < |p| && (Bang(p[s]) || ListedSymbol(p[s]));
      assert PasswordChar(p[d]) && PasswordChar(p[l]) && PasswordChar(p[u]) && PasswordChar(p[s]);
      assert p[s] in "@%$#&";
    }
  }
}

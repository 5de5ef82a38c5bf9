/**
 * The two regular expressions of the validators, written as predicates:
 *   email  /^[^\s@]+@[^\s@]+\.[^\s@]+$/
 *   UUID   /^[0-9a-f]{8}-[0-9a-f]{4}-[0-9a-f]{4}-[0-9a-f]{4}-[0-9a-f]{12}$/i
 * Each is given twice: as the test a reader would state (IsValidEmail, IsValidUuid)
 * and in the shape of the regular expression, and the two are proved equal.
 */
module Patterns {
  import opened JsValue

  // ---------------------------------------------------------------- email

  /** `[^\s@]` */
  predicate EmailChar(c: char) {
    !IsWhitespace(c) && c != '@'
  }

  /** `[^\s@]*` matched by the whole of `s` */
  predicate AllEmailChars(s: string) {
    forall i | 0 <= i < |s| :: EmailChar(s[i])
  }

  /**
   * `s` splits as local `@` host `.` tail, the three parts non-empty runs of `[^\s@]`,
   * with the `@` at index `at` and the `.` at index `dot`.
   */
  ghost predicate EmailSplit(s: string, at: int, dot: int) {
    && 0 < at && at + 1 < dot < |s| - 1
    && s[at] == '@' && s[dot] == '.'
    && AllEmailChars(s[..at]) && AllEmailChars(s[at + 1..dot]) && AllEmailChars(s[dot + 1..])
  }

  /** The email regular expression matches `s`. */
  ghost predicate EmailRegexMatches(s: string) {
    exists at, dot :: EmailSplit(s, at, dot)
  }

  /**
   * `isValidEmail`: no white space, exactly one `@`, preceded by at least one
   * character, and a `.` after the `@` that is neither the first character
   * after the `@` nor the last character of the string.
   */
  predicate IsValidEmail(s: string) {
    && (forall i | 0 <= i < |s| :: !IsWhitespace(s[i]))
    && exists at | 0 < at < |s| ::
         && s[at] == '@'
         && (forall j | 0 <= j < |s| && s[j] == '@' :: j == at)
         && (exists d | at + 1 < d < |s| - 1 :: s[d] == '.')
  }

  /** The readable test and the regular expression accept the same strings. */
  lemma EmailMatchesRegex(s: string)
    ensures IsValidEmail(s) <==> EmailRegexMatches(s)
  {
    if IsValidEmail(s) {
      var at :| 0 < at < |s| && s[at] == '@'
        && (forall j | 0 <= j < |s| && s[j] == '@' :: j == at)
        && (exists d | at + 1 < d < |s| - 1 :: s[d] == '.');
      var dot :| at + 1 < dot < |s| - 1 && s[dot] == '.';
      var local, host, tail := s[..at], s[at + 1..dot], s[dot + 1..];
      assert AllEmailChars(local) by {
        forall i | 0 <= i < |local| ensures EmailChar(local[i]) {
          assert local[i] == s[i];
        }
      }
      assert AllEmailChars(host) by {
        forall i | 0 <= i < |host| ensures EmailChar(host[i]) {
          assert host[i] == s[at + 1 + i];
        }
      }
      assert AllEmailChars(tail) by {
        forall i | 0 <= i < |tail| ensures EmailChar(tail[i]) {
          assert tail[i] == s[dot + 1 + i];
        }
      }
      assert EmailSplit(s, at, dot);
    }
    if EmailRegexMatches(s) {
      var at, dot :| EmailSplit(s, at, dot);
      forall i | 0 <= i < |s| && i != at && i != dot ensures EmailChar(s[i]) {
        if i < at {
          assert s[i] == s[..at][i];
        } else if i < dot {
          assert s[i] == s[at + 1..dot][i - at - 1];
        } else {
          assert s[i] == s[dot + 1..][i - dot - 1];
        }
      }
      assert at + 1 < dot < |s| - 1 && s[dot] == '.';
    }
  }

  // ---------------------------------------------------------------- UUID

  /** The positions of the four hyphens of an 8-4-4-4-12 UUID. */
  predicate IsUuidHyphen(i: int) {
    i == 8 || i == 13 || i == 18 || i == 23
  }

  /** `isValidUUID`: 36 characters, hyphens at 8, 13, 18, 23, hex digits of either case elsewhere. */
  predicate IsValidUuid(s: string) {
    |s| == 36 && forall i | 0 <= i < 36 :: if IsUuidHyphen(i) then s[i] == '-' else IsHexDigit(s[i])
  }

  /** `[0-9a-f]{n}` under the `i` flag. */
  predicate IsHexGroup(g: string, n: nat) {
    |g| == n && forall i | 0 <= i < |g| :: IsHexDigit(g[i])
  }

  /** The regular expression's shape: five hex groups joined by hyphens. */
  function JoinUuid(g1: string, g2: string, g3: string, g4: string, g5: string): string {
    g1 + "-" + g2 + "-" + g3 + "-" + g4 + "-" + g5
  }

  /** Every string the UUID regular expression can match is accepted. */
  lemma UuidFromGroups(g1: string, g2: string, g3: string, g4: string, g5: string)
    requires IsHexGroup(g1, 8) && IsHexGroup(g2, 4) && IsHexGroup(g3, 4) && IsHexGroup(g4, 4) && IsHexGroup(g5, 12)
    ensures IsValidUuid(JoinUuid(g1, g2, g3, g4, g5))
  {
    var s := JoinUuid(g1, g2, g3, g4, g5);
    forall i | 0 <= i < 36 ensures if IsUuidHyphen(i) then s[i] == '-' else IsHexDigit(s[i]) {
      if i < 8 { assert s[i] == g1[i]; }
      else if 8 < i < 13 { assert s[i] == g2[i - 9]; }
      else if 13 < i < 18 { assert s[i] == g3[i - 14]; }
      else if 18 < i < 23 { assert s[i] == g4[i - 19]; }
      else if 23 < i { assert s[i] == g5[i - 24]; }
    }
  }

  /** Every accepted string is matched by the UUID regular expression. */
  lemma UuidToGroups(s: string)
    requires IsValidUuid(s)
    ensures IsHexGroup(s[..8], 8) && IsHexGroup(s[9..13], 4) && IsHexGroup(s[14..18], 4)
    ensures IsHexGroup(s[19..23], 4) && IsHexGroup(s[24..], 12)
    ensures s == JoinUuid(s[..8], s[9..13], s[14..18], s[19..23], s[24..])
  {
    assert !IsUuidHyphen(0);
    assert forall i | 0 <= i < 8 :: s[..8][i] == s[i] && !IsUuidHyphen(i);
    assert forall i | 0 <= i < 4 :: s[9..13][i] == s[9 + i] && !IsUuidHyphen(9 + i);
    assert forall i | 0 <= i < 4 :: s[14..18][i] == s[14 + i] && !IsUuidHyphen(14 + i);
    assert forall i | 0 <= i < 4 :: s[19..23][i] == s[19 + i] && !IsUuidHyphen(19 + i);
    assert forall i | 0 <= i < 12 :: s[24..][i] == s[24 + i] && !IsUuidHyphen(24 + i);
    assert IsUuidHyphen(8) && IsUuidHyphen(13) && IsUuidHyphen(18) && IsUuidHyphen(23);
    var j := JoinUuid(s[..8], s[9..13], s[14..18], s[19..23], s[24..]);
    assert |j| == 36;
    forall i | 0 <= i < 36 ensures j[i] == s[i] {
      if i < 8 { assert j[i] == s[..8][i]; }
      else if i == 8 || i == 13 || i == 18 || i == 23 { assert s[i] == '-'; }
      else if i < 13 { assert j[i] == s[9..13][i - 9]; }
      else if i < 18 { assert j[i] == s[14..18][i - 14]; }
      else if i < 23 { assert j[i] == s[19..23][i - 19]; }
      else { assert j[i] == s[24..][i - 24]; }
    }
  }

  // ---------------------------------------------------------------- the source's own examples

  /** An address the service's unit tests accept: dots in the local part and in the domain. */
  lemma EmailAcceptedExample()
    ensures IsValidEmail("usuario.nome@dominio.com.br")
  {
    var s := "usuario.nome@dominio.com.br";
    forall i | 0 <= i < |s| ensures !IsWhitespace(s[i]) && (s[i] == '@' ==> i == 12) {
    }
    assert s[12] == '@' && s[20] == '.';
  }

  /** An address without a dot after its `@` is rejected. */
  lemma EmailWithoutDomainDotRejected()
    ensures !IsValidEmail("email@sem-dominio")
  {
    var s := "email@sem-dominio";
    forall at | 0 < at < |s| && s[at] == '@' ensures !(exists d | at + 1 < d < |s| - 1 :: s[d] == '.') {
      assert at == 5;
    }
  }

  /** Addresses with an empty local part, an empty domain, or no `@` are rejected. */
  lemma EmailMissingPartsRejected()
    ensures !IsValidEmail("email-sem-arroba")
    ensures !IsValidEmail("@dominio.com")
    ensures !IsValidEmail("email@")
  {
    var s := "@dominio.com";
    assert s[0] == '@';
  }

  /** The identifier of the route tests is accepted, in lower case and in upper case (the `i` flag). */
  lemma UuidAcceptedExamples()
    ensures IsValidUuid("123e4567-e89b-12d3-a456-426614174000")
    ensures IsValidUuid("123E4567-E89B-12D3-A456-426614174000")
  {
    var lower := "123e4567-e89b-12d3-a456-426614174000";
    forall i | 0 <= i < 36 ensures if IsUuidHyphen(i) then lower[i] == '-' else IsHexDigit(lower[i]) {
    }
    var upper := "123E4567-E89B-12D3-A456-426614174000";
    forall i | 0 <= i < 36 ensures if IsUuidHyphen(i) then upper[i] == '-' else IsHexDigit(upper[i]) {
    }
  }

  /** `id-invalido` is not a UUID. */
  lemma UuidRejectedExample()
    ensures !IsValidUuid("id-invalido")
  {
  }
}

/** The registration form (`src/app/ficha-cadastral/page.tsx`): the CPF and
    telephone input masks, the form state they are applied to on every
    keystroke, and the checks run when the form is submitted.

    Each mask is a chain of `String.prototype.replace` calls. Every call is
    modelled by what its regular expression does: a global replace of `\D`
    drops the non-digits; a non-global replace of a digit-group pattern acts
    at the leftmost place the pattern matches; the final anchored pattern
    cuts the digits after a dash. The masks are then proved equal to a
    layout written out by the number of digits typed, and the properties
    are proved about that layout. */
module FichaCadastral {

  import opened Common

  predicate AllDigits(s: string) {
    forall i :: 0 <= i < |s| ==> IsDigit(s[i])
  }

  /** `value.replace(/\D/g, '')`. */
  function OnlyDigits(s: string): (d: string)
    ensures AllDigits(d)
    ensures |d| <= |s|
    ensures AllDigits(s) ==> d == s
  {
    if s == [] then [] else (if IsDigit(s[0]) then [s[0]] else []) + OnlyDigits(s[1..])
  }

  lemma {:induction false} OnlyDigitsAppend(a: string, b: string)
    ensures OnlyDigits(a + b) == OnlyDigits(a) + OnlyDigits(b)
    decreases |a|
  {
    if a == [] {
      assert a + b == b;
    } else {
      assert (a + b)[1..] == a[1..] + b;
      OnlyDigitsAppend(a[1..], b);
    }
  }

  /** `len` digits start at position `i`. */
  predicate DigitsAt(s: string, i: nat, len: nat) {
    i + len <= |s| && forall t :: i <= t < i + len ==> IsDigit(s[t])
  }

  /** Where a non-global match of a pattern made of `len` digits starts: the
      leftmost run of `len` digits at or after `from`, if any. */
  function FirstDigitRun(s: string, len: nat, from: nat): (r: Option<nat>)
    ensures r.Some? ==> from <= r.value && DigitsAt(s, r.value, len)
    ensures forall j :: from <= j && (r.None? || j < r.value) ==> !DigitsAt(s, j, len)
    decreases |s| - from
  {
    if from + len > |s| then None
    else if DigitsAt(s, from, len) then Some(from)
    else FirstDigitRun(s, len, from + 1)
  }

  /** `s.replace(/(\d{split})(\d...)/, open + '$1' + mid + '$2')`: at the
      first run of `len` digits, `open` goes before the run and `mid` after
      its first `split` digits; without such a run `s` is unchanged. (The
      greedy `\d{1,2}` of the third CPF step changes how much the match
      spans, not where `mid` goes.) */
  function GroupReplace(s: string, len: nat, split: nat, open: string, mid: string): string
    requires split <= len
  {
    match FirstDigitRun(s, len, 0)
    case None => s
    case Some(i) => s[..i] + open + s[i..i + split] + mid + s[i + split..]
  }

  /** The pattern `(-\d{keep})\d+?$` matches at `i`: a dash, `keep` digits,
      then one or more digits up to the end of the text. */
  predicate TailAt(s: string, keep: nat, i: nat) {
    i < |s| && s[i] == '-' && DigitsAt(s, i + 1, keep) && i + 1 + keep < |s| && AllDigits(s[i + 1 + keep..])
  }

  /** The leftmost place at or after `from` where that pattern matches. */
  function FirstTail(s: string, keep: nat, from: nat): (r: Option<nat>)
    ensures r.Some? ==> from <= r.value && TailAt(s, keep, r.value)
    ensures forall j :: from <= j && (r.None? || j < r.value) ==> !TailAt(s, keep, j)
    decreases |s| - from
  {
    if from >= |s| then None
    else if TailAt(s, keep, from) then Some(from)
    else FirstTail(s, keep, from + 1)
  }

  /** `s.replace(/(-\d{keep})\d+?$/, '$1')`: the digits after the first
      `keep` that follow the dash are cut off. */
  function TrimTail(s: string, keep: nat): string {
    match FirstTail(s, keep, 0)
    case None => s
    case Some(i) => s[..i + 1 + keep]
  }

  /** `formatCPF`. */
  function FormatCPF(value: string): string {
    CpfSteps(OnlyDigits(value))
  }

  /** The three group steps and the tail step of `formatCPF`, applied to the digits. */
  function CpfSteps(d: string): string {
    var s1 := GroupReplace(d, 4, 3, "", ".");
    var s2 := GroupReplace(s1, 4, 3, "", ".");
    var s3 := GroupReplace(s2, 4, 3, "", "-");
    TrimTail(s3, 2)
  }

  /** `formatPhone`. */
  function FormatPhone(value: string): string {
    PhoneSteps(OnlyDigits(value))
  }

  /** The two group steps and the tail step of `formatPhone`, applied to the digits. */
  function PhoneSteps(d: string): string {
    var s1 := GroupReplace(d, 3, 2, "(", ") ");
    var s2 := GroupReplace(s1, 6, 5, "", "-");
    TrimTail(s2, 4)
  }

  // ---------------------------------------------------------------------
  // The layouts the masks produce

  /** The first `k` characters, or all of them. */
  function Take(d: string, k: nat): (r: string)
    ensures |r| == if |d| <= k then |d| else k
    ensures r == d[..|r|]
  {
    if |d| <= k then d else d[..k]
  }

  /** The CPF layout by the number of digits typed, up to the eleventh:
      `DDD`, `DDD.D…`, `DDD.DDD.D…`, `DDD.DDD.DDD-D…`. */
  function CpfLayout(digits: string): string {
    var d := Take(digits, 11);
    if |d| <= 3 then d
    else if |d| <= 6 then d[..3] + "." + d[3..]
    else if |d| <= 9 then d[..3] + "." + d[3..6] + "." + d[6..]
    else d[..3] + "." + d[3..6] + "." + d[6..9] + "-" + d[9..]
  }

  /** The telephone layout by the number of digits typed, up to the
      eleventh: `DD`, `(DD) D…`, `(DD) DDDDD-D…`. */
  function PhoneLayout(digits: string): string {
    var d := Take(digits, 11);
    if |d| <= 2 then d
    else if |d| <= 7 then "(" + d[..2] + ") " + d[2..]
    else "(" + d[..2] + ") " + d[2..7] + "-" + d[7..]
  }

  // ---------------------------------------------------------------------
  // Where each pattern matches

  /** A non-digit at `k` keeps every window of `len` that covers it from
      being a run of digits. */
  lemma Blocked(s: string, len: nat, k: nat)
    requires k < |s| && !IsDigit(s[k])
    ensures forall j: nat :: j <= k < j + len ==> !DigitsAt(s, j, len)
  {
  }

  lemma RunAt(s: string, len: nat, k: nat)
    requires DigitsAt(s, k, len)
    requires forall j :: 0 <= j < k ==> !DigitsAt(s, j, len)
    ensures FirstDigitRun(s, len, 0) == Some(k)
  {
  }

  lemma NoRun(s: string, len: nat)
    requires forall j: nat :: !DigitsAt(s, j, len)
    ensures FirstDigitRun(s, len, 0) == None
  {
  }

  predicate NoDash(s: string) {
    forall i :: 0 <= i < |s| ==> s[i] != '-'
  }

  lemma NoDashTail(s: string, keep: nat)
    requires NoDash(s)
    ensures TrimTail(s, keep) == s
  {
  }

  /** The tail pattern can only match at the one dash of `x + "-" + y`. */
  lemma OneDashTail(x: string, y: string, keep: nat)
    requires NoDash(x) && AllDigits(y)
    ensures var s := x + "-" + y;
      TrimTail(s, keep) == if |y| > keep then x + "-" + y[..keep] else s
  {
    var s := x + "-" + y;
    var k := |x|;
    assert s[k] == '-';
    forall i | 0 <= i < |s| && i != k
      ensures s[i] != '-'
    {
      if i < k {
        assert s[i] == x[i];
      } else {
        assert s[i] == y[i - k - 1];
      }
    }
    assert s[k + 1..] == y;
    if |y| > keep {
      assert TailAt(s, keep, k) by {
        assert s[k + 1 + keep..] == y[keep..];
        assert forall t :: k + 1 <= t < k + 1 + keep ==> s[t] == y[t - k - 1];
      }
      assert s[..k + 1 + keep] == x + "-" + y[..keep];
    } else {
      assert !TailAt(s, keep, k);
    }
  }

  // ---------------------------------------------------------------------
  // formatCPF, step by step

  lemma CpfStep1(d: string)
    requires AllDigits(d)
    ensures GroupReplace(d, 4, 3, "", ".") == if |d| >= 4 then d[..3] + "." + d[3..] else d
  {
    if |d| >= 4 {
      assert DigitsAt(d, 0, 4);
      RunAt(d, 4, 0);
      assert d[..0] + "" + d[0..3] == d[..3];
    } else {
      NoRun(d, 4);
    }
  }

  lemma CpfStep2(d: string)
    requires AllDigits(d) && |d| >= 4
    ensures var s := d[..3] + "." + d[3..];
      GroupReplace(s, 4, 3, "", ".") == if |d| >= 7 then d[..3] + "." + d[3..6] + "." + d[6..] else s
  {
    var s := d[..3] + "." + d[3..];
    assert s[3] == '.';
    Blocked(s, 4, 3);
    assert forall t :: 4 <= t < |s| ==> s[t] == d[t - 1];
    if |d| >= 7 {
      assert DigitsAt(s, 4, 4);
      RunAt(s, 4, 4);
      assert s[..4] + "" + s[4..7] + "." + s[7..] == d[..3] + "." + d[3..6] + "." + d[6..];
    } else {
      NoRun(s, 4);
    }
  }

  lemma CpfStep3(d: string)
    requires AllDigits(d) && |d| >= 7
    ensures var s := d[..3] + "." + d[3..6] + "." + d[6..];
      GroupReplace(s, 4, 3, "", "-") == if |d| >= 10 then d[..3] + "." + d[3..6] + "." + d[6..9] + "-" + d[9..] else s
  {
    var s := d[..3] + "." + d[3..6] + "." + d[6..];
    assert s[3] == '.' && s[7] == '.';
    Blocked(s, 4, 3);
    Blocked(s, 4, 7);
    assert forall t :: 8 <= t < |s| ==> s[t] == d[t - 2];
    if |d| >= 10 {
      assert DigitsAt(s, 8, 4);
      RunAt(s, 4, 8);
      assert s[..8] + "" + s[8..11] + "-" + s[11..] == d[..3] + "." + d[3..6] + "." + d[6..9] + "-" + d[9..];
    } else {
      NoRun(s, 4);
    }
  }

  /** The three steps that leave a shape without a dash: after the first
      step the digit groups are too short for the third one. */
  lemma CpfStep3Short(d: string)
    requires AllDigits(d) && 4 <= |d| < 7
    ensures var s := d[..3] + "." + d[3..];
      GroupReplace(s, 4, 3, "", "-") == s
  {
    var s := d[..3] + "." + d[3..];
    assert s[3] == '.';
    Blocked(s, 4, 3);
    NoRun(s, 4);
  }

  lemma DigitsNoDash(d: string)
    requires AllDigits(d)
    ensures NoDash(d)
  {
  }

  /** From four to six digits one '.' is inserted and no dash. */
  lemma CpfMiddleLayout(d: string)
    requires AllDigits(d) && 4 <= |d| < 7
    ensures CpfSteps(d) == CpfLayout(d)
  {
    assert Take(d, 11) == d;
    CpfStep1(d);
    CpfStep2(d);
    CpfStep3Short(d);
    var s := d[..3] + "." + d[3..];
    assert NoDash(s) by { assert forall t :: 0 <= t < |s| && t != 3 ==> s[t] == d[if t < 3 then t else t - 1]; }
    NoDashTail(s, 2);
  }

  /** From seven to nine digits two '.' are inserted and no dash. */
  lemma CpfUpperLayout(d: string)
    requires AllDigits(d) && 7 <= |d| < 10
    ensures CpfSteps(d) == CpfLayout(d)
  {
    assert Take(d, 11) == d;
    CpfStep1(d);
    CpfStep2(d);
    CpfStep3(d);
    var s := d[..3] + "." + d[3..6] + "." + d[6..];
    DottedNoDash(d);
    NoDashTail(s, 2);
  }

  lemma DottedNoDash(d: string)
    requires AllDigits(d) && |d| >= 6
    ensures NoDash(d[..3] + "." + d[3..6] + "." + d[6..])
  {
    var s := d[..3] + "." + d[3..6] + "." + d[6..];
    assert forall t :: 0 <= t < |s| && t != 3 && t != 7 ==> s[t] == d[if t < 3 then t else if t < 7 then t - 1 else t - 2];
  }

  /** Up to nine digits no dash is inserted and the tail step does nothing. */
  lemma CpfShortLayout(d: string)
    requires AllDigits(d) && |d| < 10
    ensures CpfSteps(d) == CpfLayout(d)
  {
    if |d| < 4 {
      assert Take(d, 11) == d;
      CpfStep1(d);
      NoRun(d, 4);
      DigitsNoDash(d);
      NoDashTail(d, 2);
    } else if |d| < 7 {
      CpfMiddleLayout(d);
    } else {
      CpfUpperLayout(d);
    }
  }

  /** From ten digits on, the group steps give `DDD.DDD.DDD-` and the rest. */
  lemma CpfGroupsLong(d: string)
    requires AllDigits(d) && |d| >= 10
    ensures var s1 := GroupReplace(d, 4, 3, "", ".");
      var s2 := GroupReplace(s1, 4, 3, "", ".");
      GroupReplace(s2, 4, 3, "", "-") == (d[..3] + "." + d[3..6] + "." + d[6..9]) + "-" + d[9..]
  {
    CpfStep1(d);
    CpfStep2(d);
    CpfStep3(d);
  }

  /** ... and the tail step keeps two digits after the dash. */
  lemma CpfTailLong(d: string)
    requires AllDigits(d) && |d| >= 10
    ensures TrimTail((d[..3] + "." + d[3..6] + "." + d[6..9]) + "-" + d[9..], 2) == CpfLayout(d)
  {
    var x := d[..3] + "." + d[3..6] + "." + d[6..9];
    assert NoDash(x) by {
      assert forall t :: 0 <= t < |x| && t != 3 && t != 7 ==> x[t] == d[if t < 3 then t else if t < 7 then t - 1 else t - 2];
    }
    OneDashTail(x, d[9..], 2);
    var e := Take(d, 11);
    assert e[..3] == d[..3] && e[3..6] == d[3..6] && e[6..9] == d[6..9];
    if |d| > 11 {
      assert d[9..][..2] == e[9..];
    } else {
      assert e == d;
    }
  }

  lemma CpfLongLayout(d: string)
    requires AllDigits(d) && |d| >= 10
    ensures CpfSteps(d) == CpfLayout(d)
  {
    CpfGroupsLong(d);
    CpfTailLong(d);
  }

  /** `formatCPF` is the CPF layout of the digits typed. */
  lemma FormatCPFLayout(value: string)
    ensures FormatCPF(value) == CpfLayout(OnlyDigits(value))
  {
    var d := OnlyDigits(value);
    if |d| < 10 {
      CpfShortLayout(d);
    } else {
      CpfLongLayout(d);
    }
  }

  // ---------------------------------------------------------------------
  // formatPhone, step by step

  lemma PhoneStep1(d: string)
    requires AllDigits(d)
    ensures GroupReplace(d, 3, 2, "(", ") ") == if |d| >= 3 then "(" + d[..2] + ") " + d[2..] else d
  {
    if |d| >= 3 {
      assert DigitsAt(d, 0, 3);
      RunAt(d, 3, 0);
      assert d[..0] + "(" + d[0..2] == "(" + d[..2];
    } else {
      NoRun(d, 3);
    }
  }

  lemma PhoneStep2(d: string)
    requires AllDigits(d) && |d| >= 3
    ensures var s := "(" + d[..2] + ") " + d[2..];
      GroupReplace(s, 6, 5, "", "-") == if |d| >= 8 then "(" + d[..2] + ") " + d[2..7] + "-" + d[7..] else s
  {
    var s := "(" + d[..2] + ") " + d[2..];
    assert s[4] == ' ';
    Blocked(s, 6, 4);
    assert forall t :: 5 <= t < |s| ==> s[t] == d[t - 3];
    if |d| >= 8 {
      assert DigitsAt(s, 5, 6);
      RunAt(s, 6, 5);
      assert s[..5] + "" + s[5..10] + "-" + s[10..] == "(" + d[..2] + ") " + d[2..7] + "-" + d[7..];
    } else {
      NoRun(s, 6);
    }
  }

  /** Up to seven digits no dash is inserted and the tail step does nothing. */
  lemma PhoneShortLayout(d: string)
    requires AllDigits(d) && |d| < 8
    ensures PhoneSteps(d) == PhoneLayout(d)
  {
    assert Take(d, 11) == d;
    PhoneStep1(d);
    if |d| < 3 {
      NoRun(d, 6);
      DigitsNoDash(d);
      NoDashTail(d, 4);
    } else {
      PhoneStep2(d);
      var s := "(" + d[..2] + ") " + d[2..];
      assert NoDash(s) by {
        assert forall t :: 0 <= t < |s| && t != 0 && t != 3 && t != 4 ==> s[t] == d[if t < 3 then t - 1 else t - 3];
      }
      NoDashTail(s, 4);
    }
  }

  /** From eight digits on, the group steps give `(DD) DDDDD-` and the rest. */
  lemma PhoneGroupsLong(d: string)
    requires AllDigits(d) && |d| >= 8
    ensures var s1 := GroupReplace(d, 3, 2, "(", ") ");
      GroupReplace(s1, 6, 5, "", "-") == ("(" + d[..2] + ") " + d[2..7]) + "-" + d[7..]
  {
    PhoneStep1(d);
    PhoneStep2(d);
    assert "(" + d[..2] + ") " + d[2..7] + "-" + d[7..] == ("(" + d[..2] + ") " + d[2..7]) + "-" + d[7..];
  }

  /** ... and the tail step keeps four digits after the dash. */
  lemma PhoneTailLong(d: string)
    requires AllDigits(d) && |d| >= 8
    ensures TrimTail(("(" + d[..2] + ") " + d[2..7]) + "-" + d[7..], 4) == PhoneLayout(d)
  {
    var x := "(" + d[..2] + ") " + d[2..7];
    assert NoDash(x) by {
      assert forall t :: 0 <= t < |x| && t != 0 && t != 3 && t != 4 ==> x[t] == d[if t < 3 then t - 1 else t - 3];
    }
    OneDashTail(x, d[7..], 4);
    var e := Take(d, 11);
    assert e[..2] == d[..2] && e[2..7] == d[2..7];
    if |d| > 11 {
      assert d[7..][..4] == e[7..];
    } else {
      assert e == d;
    }
  }

  lemma PhoneLongLayout(d: string)
    requires AllDigits(d) && |d| >= 8
    ensures PhoneSteps(d) == PhoneLayout(d)
  {
    PhoneGroupsLong(d);
    PhoneTailLong(d);
  }

  /** `formatPhone` is the telephone layout of the digits typed. */
  lemma FormatPhoneLayout(value: string)
    ensures FormatPhone(value) == PhoneLayout(OnlyDigits(value))
  {
    var d := OnlyDigits(value);
    if |d| < 8 {
      PhoneShortLayout(d);
    } else {
      PhoneLongLayout(d);
    }
  }

  // ---------------------------------------------------------------------
  // What the masks promise

  /** The characters of `s` are digits or among `extra`. */
  predicate Within(s: string, extra: set<char>) {
    forall i :: 0 <= i < |s| ==> IsDigit(s[i]) || s[i] in extra
  }

  lemma WithinAppend(a: string, b: string, extra: set<char>)
    requires Within(a, extra) && Within(b, extra)
    ensures Within(a + b, extra)
  {
    forall i | 0 <= i < |a + b|
      ensures IsDigit((a + b)[i]) || (a + b)[i] in extra
    {
      if i < |a| {
        assert (a + b)[i] == a[i];
      } else {
        assert (a + b)[i] == b[i - |a|];
      }
    }
  }

  lemma DigitsWithin(d: string, extra: set<char>)
    requires AllDigits(d)
    ensures Within(d, extra)
  {
  }

  lemma SeparatorsHaveNoDigits()
    ensures OnlyDigits(".") == [] && OnlyDigits("-") == []
    ensures OnlyDigits("(") == [] && OnlyDigits(") ") == []
  {
    assert ") "[1..] == " ";
  }

  /** Appending the next digits of `d` to a text holding its first `k`
      digits makes it hold the first `m`. */
  lemma AppendDigits(p: string, d: string, k: nat, m: nat)
    requires AllDigits(d) && k <= m <= |d| && OnlyDigits(p) == d[..k]
    ensures OnlyDigits(p + d[k..m]) == d[..m]
  {
    OnlyDigitsAppend(p, d[k..m]);
    assert d[..k] + d[k..m] == d[..m];
  }

  /** Appending a separator adds no digit. */
  lemma AppendSeparator(p: string, sep: string)
    requires OnlyDigits(sep) == []
    ensures OnlyDigits(p + sep) == OnlyDigits(p)
  {
    OnlyDigitsAppend(p, sep);
  }

  lemma CpfGroupDigits(d: string)
    requires AllDigits(d) && |d| > 3
    ensures OnlyDigits(d[..3] + ".") == d[..3]
  {
    SeparatorsHaveNoDigits();
    assert OnlyDigits(d[..3]) == d[..3];
    AppendSeparator(d[..3], ".");
  }

  lemma CpfDigitsUpToSix(d: string)
    requires AllDigits(d) && 3 < |d| <= 6
    ensures OnlyDigits(d[..3] + "." + d[3..]) == d
  {
    CpfGroupDigits(d);
    AppendDigits(d[..3] + ".", d, 3, |d|);
    assert d[..|d|] == d;
  }

  lemma CpfDigitsUpToNine(d: string)
    requires AllDigits(d) && 6 < |d| <= 9
    ensures OnlyDigits(d[..3] + "." + d[3..6] + "." + d[6..]) == d
  {
    SeparatorsHaveNoDigits();
    CpfGroupDigits(d);
    AppendDigits(d[..3] + ".", d, 3, 6);
    AppendSeparator(d[..3] + "." + d[3..6], ".");
    AppendDigits(d[..3] + "." + d[3..6] + ".", d, 6, |d|);
    assert d[..|d|] == d;
  }

  lemma CpfDigitsFromTen(d: string)
    requires AllDigits(d) && 9 < |d|
    ensures OnlyDigits(d[..3] + "." + d[3..6] + "." + d[6..9] + "-" + d[9..]) == d
  {
    SeparatorsHaveNoDigits();
    CpfGroupDigits(d);
    AppendDigits(d[..3] + ".", d, 3, 6);
    AppendSeparator(d[..3] + "." + d[3..6], ".");
    AppendDigits(d[..3] + "." + d[3..6] + ".", d, 6, 9);
    AppendSeparator(d[..3] + "." + d[3..6] + "." + d[6..9], "-");
    AppendDigits(d[..3] + "." + d[3..6] + "." + d[6..9] + "-", d, 9, |d|);
    assert d[..|d|] == d;
  }

  /** The digits of the CPF layout are the first eleven digits typed. */
  lemma CpfLayoutDigits(digits: string)
    requires AllDigits(digits)
    ensures OnlyDigits(CpfLayout(digits)) == Take(digits, 11)
  {
    var d := Take(digits, 11);
    assert AllDigits(d);
    if |d| <= 3 {
    } else if |d| <= 6 {
      CpfDigitsUpToSix(d);
    } else if |d| <= 9 {
      CpfDigitsUpToNine(d);
    } else {
      CpfDigitsFromTen(d);
    }
  }

  lemma PhoneDigitsUpToSeven(d: string)
    requires AllDigits(d) && 2 < |d| <= 7
    ensures OnlyDigits("(" + d[..2] + ") " + d[2..]) == d
  {
    SeparatorsHaveNoDigits();
    assert d[..0] == [];
    AppendDigits("(", d, 0, 2);
    AppendSeparator("(" + d[..2], ") ");
    AppendDigits("(" + d[..2] + ") ", d, 2, |d|);
    assert d[..|d|] == d;
  }

  lemma PhoneDigitsFromEight(d: string)
    requires AllDigits(d) && 7 < |d|
    ensures OnlyDigits("(" + d[..2] + ") " + d[2..7] + "-" + d[7..]) == d
  {
    SeparatorsHaveNoDigits();
    assert d[..0] == [];
    AppendDigits("(", d, 0, 2);
    AppendSeparator("(" + d[..2], ") ");
    AppendDigits("(" + d[..2] + ") ", d, 2, 7);
    AppendSeparator("(" + d[..2] + ") " + d[2..7], "-");
    AppendDigits("(" + d[..2] + ") " + d[2..7] + "-", d, 7, |d|);
    assert d[..|d|] == d;
  }

  /** The digits of the telephone layout are the first eleven digits typed. */
  lemma PhoneLayoutDigits(digits: string)
    requires AllDigits(digits)
    ensures OnlyDigits(PhoneLayout(digits)) == Take(digits, 11)
  {
    var d := Take(digits, 11);
    assert AllDigits(d);
    if |d| <= 2 {
    } else if |d| <= 7 {
      PhoneDigitsUpToSeven(d);
    } else {
      PhoneDigitsFromEight(d);
    }
  }

  /** The CPF layout adds nothing but '.' and '-' to the digits. */
  lemma CpfLayoutWithin(digits: string)
    requires AllDigits(digits)
    ensures Within(CpfLayout(digits), {'.', '-'})
  {
    var d := Take(digits, 11);
    var extra := {'.', '-'};
    assert AllDigits(d);
    DigitsWithin(d, extra);
    if |d| > 3 {
      DigitsWithin(d[..3], extra);
      DigitsWithin(d[3..], extra);
      WithinAppend(d[..3], ".", extra);
      if |d| <= 6 {
        WithinAppend(d[..3] + ".", d[3..], extra);
      } else {
        DigitsWithin(d[3..6], extra);
        DigitsWithin(d[6..], extra);
        WithinAppend(d[..3] + ".", d[3..6], extra);
        WithinAppend(d[..3] + "." + d[3..6], ".", extra);
        if |d| <= 9 {
          WithinAppend(d[..3] + "." + d[3..6] + ".", d[6..], extra);
        } else {
          DigitsWithin(d[6..9], extra);
          DigitsWithin(d[9..], extra);
          WithinAppend(d[..3] + "." + d[3..6] + ".", d[6..9], extra);
          WithinAppend(d[..3] + "." + d[3..6] + "." + d[6..9], "-", extra);
          WithinAppend(d[..3] + "." + d[3..6] + "." + d[6..9] + "-", d[9..], extra);
        }
      }
    }
  }

  /** `formatCPF` keeps exactly the first eleven digits typed, in order,
      and adds nothing but '.' and '-'. */
  lemma CpfDigitsKept(value: string)
    ensures OnlyDigits(FormatCPF(value)) == Take(OnlyDigits(value), 11)
    ensures Within(FormatCPF(value), {'.', '-'})
  {
    FormatCPFLayout(value);
    CpfLayoutDigits(OnlyDigits(value));
    CpfLayoutWithin(OnlyDigits(value));
  }

  /** `formatPhone` keeps exactly the first eleven digits typed, in order,
      and adds nothing but '(', ')', ' ' and '-'. */
  lemma PhoneDigitsKept(value: string)
    ensures OnlyDigits(FormatPhone(value)) == Take(OnlyDigits(value), 11)
    ensures Within(FormatPhone(value), {'(', ')', ' ', '-'})
  {
    FormatPhoneLayout(value);
    var digits := OnlyDigits(value);
    PhoneLayoutDigits(digits);
    var d := Take(digits, 11);
    var extra := {'(', ')', ' ', '-'};
    assert AllDigits(d);
    DigitsWithin(d, extra);
    if |d| > 2 {
      DigitsWithin(d[..2], extra);
      DigitsWithin(d[2..], extra);
      WithinAppend("(", d[..2], extra);
      WithinAppend("(" + d[..2], ") ", extra);
      if |d| <= 7 {
        WithinAppend("(" + d[..2] + ") ", d[2..], extra);
      } else {
        DigitsWithin(d[2..7], extra);
        DigitsWithin(d[7..], extra);
        WithinAppend("(" + d[..2] + ") ", d[2..7], extra);
        WithinAppend("(" + d[..2] + ") " + d[2..7], "-", extra);
        WithinAppend("(" + d[..2] + ") " + d[2..7] + "-", d[7..], extra);
      }
    }
  }

  lemma CpfLayoutShape(d: string)
    requires AllDigits(d) && |d| == 11
    ensures var f := d[..3] + "." + d[3..6] + "." + d[6..9] + "-" + d[9..];
      && |f| == 14 && f[3] == '.' && f[7] == '.' && f[11] == '-'
      && AllDigits(f[..3]) && AllDigits(f[4..7]) && AllDigits(f[8..11]) && AllDigits(f[12..])
  {
    var f := d[..3] + "." + d[3..6] + "." + d[6..9] + "-" + d[9..];
    assert f[..3] == d[..3] && f[4..7] == d[3..6] && f[8..11] == d[6..9] && f[12..] == d[9..];
  }

  /** With eleven digits or more typed, the CPF reads `DDD.DDD.DDD-DD`. */
  lemma CpfShape(value: string)
    requires |OnlyDigits(value)| >= 11
    ensures var f := FormatCPF(value);
      && |f| == 14 && f[3] == '.' && f[7] == '.' && f[11] == '-'
      && AllDigits(f[..3]) && AllDigits(f[4..7]) && AllDigits(f[8..11]) && AllDigits(f[12..])
  {
    FormatCPFLayout(value);
    var d := Take(OnlyDigits(value), 11);
    assert AllDigits(d) && |d| == 11;
    CpfLayoutShape(d);
  }

  lemma PhoneLayoutShape(d: string)
    requires AllDigits(d) && |d| == 11
    ensures var f := "(" + d[..2] + ") " + d[2..7] + "-" + d[7..];
      && |f| == 15 && f[0] == '(' && f[3] == ')' && f[4] == ' ' && f[10] == '-'
      && AllDigits(f[1..3]) && AllDigits(f[5..10]) && AllDigits(f[11..])
  {
    var f := "(" + d[..2] + ") " + d[2..7] + "-" + d[7..];
    assert f[1..3] == d[..2] && f[5..10] == d[2..7] && f[11..] == d[7..];
  }

  /** With eleven digits or more typed, the telephone reads `(DD) DDDDD-DDDD`. */
  lemma PhoneShape(value: string)
    requires |OnlyDigits(value)| >= 11
    ensures var f := FormatPhone(value);
      && |f| == 15 && f[0] == '(' && f[3] == ')' && f[4] == ' ' && f[10] == '-'
      && AllDigits(f[1..3]) && AllDigits(f[5..10]) && AllDigits(f[11..])
  {
    FormatPhoneLayout(value);
    var d := Take(OnlyDigits(value), 11);
    assert AllDigits(d) && |d| == 11;
    PhoneLayoutShape(d);
  }

  /** Masking a masked CPF changes nothing: re-applying the mask on every
      keystroke is harmless. */
  lemma FormatCPFIdempotent(value: string)
    ensures FormatCPF(FormatCPF(value)) == FormatCPF(value)
  {
    CpfDigitsKept(value);
    FormatCPFLayout(value);
    FormatCPFLayout(FormatCPF(value));
    var d := OnlyDigits(value);
    assert Take(Take(d, 11), 11) == Take(d, 11);
  }

  lemma FormatPhoneIdempotent(value: string)
    ensures FormatPhone(FormatPhone(value)) == FormatPhone(value)
  {
    PhoneDigitsKept(value);
    FormatPhoneLayout(value);
    FormatPhoneLayout(FormatPhone(value));
    var d := OnlyDigits(value);
    assert Take(Take(d, 11), 11) == Take(d, 11);
  }

  // ---------------------------------------------------------------------
  // The form state and its submission

  /** `formData`. */
  datatype Form = Form(name: string, email: string, cpf: string, phone: string,
                       city: string, state: string, observations: string)

  /** The input an event comes from (`e.target.name`). */
  datatype Field = NameField | EmailField | CpfField | PhoneField | CityField | StateField | ObservationsField

  /** The state the page starts in: the signed-in user's name and email,
      every other field empty. */
  function InitialForm(userName: string, userEmail: string): Form {
    Form(userName, userEmail, "", "", "", "", "")
  }

  /** `handleInputChange`: the CPF and telephone inputs store the masked
      value, every other input the value as typed. */
  function InputChange(form: Form, field: Field, value: string): Form {
    match field
    case NameField => form.(name := value)
    case EmailField => form.(email := value)
    case CpfField => form.(cpf := FormatCPF(value))
    case PhoneField => form.(phone := FormatPhone(value))
    case CityField => form.(city := value)
    case StateField => form.(state := value)
    case ObservationsField => form.(observations := value)
  }

  /** The CPF and telephone fields hold values their masks leave as they are. */
  predicate Masked(form: Form) {
    FormatCPF(form.cpf) == form.cpf && FormatPhone(form.phone) == form.phone
  }

  lemma InitialFormMasked(userName: string, userEmail: string)
    ensures Masked(InitialForm(userName, userEmail))
  {
    assert OnlyDigits("") == "";
    CpfShortLayout("");
    PhoneShortLayout("");
  }

  /** Every input event keeps the masks in place, and a masked field never
      holds more than eleven digits. */
  lemma InputKeepsMasks(form: Form, field: Field, value: string)
    requires Masked(form)
    ensures Masked(InputChange(form, field, value))
    ensures |OnlyDigits(InputChange(form, field, value).cpf)| <= 11
    ensures |OnlyDigits(InputChange(form, field, value).phone)| <= 11
  {
    var after := InputChange(form, field, value);
    FormatCPFIdempotent(value);
    FormatPhoneIdempotent(value);
    CpfDigitsKept(after.cpf);
    PhoneDigitsKept(after.phone);
  }

  const RequiredMissing := "Preencha todos os campos obrigatórios"
  const InvalidCpf := "CPF inválido"
  const InvalidPhone := "Telefone inválido"

  /** One of the six required fields is empty; `observations` is optional. */
  predicate MissingRequired(form: Form) {
    form.name == "" || form.email == "" || form.cpf == "" || form.phone == ""
    || form.city == "" || form.state == ""
  }

  /** The checks of `handleSubmit`, in their order: the message shown, or
      nothing when the form goes on to be sent. */
  function SubmitError(form: Form): (error: Option<string>)
    ensures error.None? <==> !MissingRequired(form) && |OnlyDigits(form.cpf)| == 11 && |OnlyDigits(form.phone)| >= 10
    ensures error == Some(RequiredMissing) <==> MissingRequired(form)
    ensures error == Some(InvalidCpf) <==> !MissingRequired(form) && |OnlyDigits(form.cpf)| != 11
    ensures error == Some(InvalidPhone) <==>
      !MissingRequired(form) && |OnlyDigits(form.cpf)| == 11 && |OnlyDigits(form.phone)| < 10
  {
    if MissingRequired(form) then Some(RequiredMissing)
    else if |OnlyDigits(form.cpf)| != 11 then Some(InvalidCpf)
    else if |OnlyDigits(form.phone)| < 10 then Some(InvalidPhone)
    else None
  }

  /** On a form filled through its inputs the CPF check only rejects too
      few digits, since the mask never keeps more than eleven. */
  lemma MaskedCpfTooShort(form: Form)
    requires Masked(form)
    ensures SubmitError(form) == Some(InvalidCpf) <==> !MissingRequired(form) && |OnlyDigits(form.cpf)| < 11
  {
    CpfDigitsKept(form.cpf);
  }

  /** A form whose CPF input received at least eleven digits and whose
      telephone input received at least ten passes every check once the
      other required fields are filled. */
  lemma TypedFormPasses(form: Form, cpfTyped: string, phoneTyped: string)
    requires form.name != "" && form.email != "" && form.city != "" && form.state != ""
    requires |OnlyDigits(cpfTyped)| >= 11 && |OnlyDigits(phoneTyped)| >= 10
    ensures SubmitError(InputChange(InputChange(form, CpfField, cpfTyped), PhoneField, phoneTyped)).None?
  {
    CpfDigitsKept(cpfTyped);
    PhoneDigitsKept(phoneTyped);
    var after := InputChange(InputChange(form, CpfField, cpfTyped), PhoneField, phoneTyped);
    assert |OnlyDigits(after.cpf)| == 11;
    assert |OnlyDigits(after.phone)| >= 10;
  }
}

/** When the method text of a legacy fight says draw or no contest, told character by
    character. */
module LegacyText {
  import opened Prelude
  import opened LegacyUpgrade

  /** The characters of "draw" from a place on, in either letter case. */
  ghost predicate DrawAt(text: string, i: int) {
    && 0 <= i && i + 4 <= |text|
    && (text[i] == 'd' || text[i] == 'D') && (text[i + 1] == 'r' || text[i + 1] == 'R')
    && (text[i + 2] == 'a' || text[i + 2] == 'A') && (text[i + 3] == 'w' || text[i + 3] == 'W')
  }

  ghost predicate SaysDraw(text: string) { exists i :: DrawAt(text, i) }

  ghost predicate Dashes(text: string, from: int, to: int)
    requires 0 <= from && to <= |text|
  {
    forall i | from <= i < to :: text[i] == '-'
  }

  /** An n and a later c, in either letter case, with dashes at most in between. */
  ghost predicate NoContestAt(text: string, i: int, j: int) {
    && 0 <= i < j < |text| && (text[i] == 'n' || text[i] == 'N') && (text[j] == 'c' || text[j] == 'C')
    && Dashes(text, i + 1, j)
  }

  ghost predicate SaysNoContest(text: string) { exists i, j :: NoContestAt(text, i, j) }

  // ----- draws -----

  function LowerChar(ch: char): char { if 'A' <= ch <= 'Z' then ch + ('a' - 'A') else ch }

  lemma {:induction false} LowerAt(text: string)
    ensures |Lower(text)| == |text| && forall i | 0 <= i < |text| :: Lower(text)[i] == LowerChar(text[i])
  {
    if text != "" {
      LowerAt(Front(text));
    }
  }

  lemma LowerLetters(ch: char)
    ensures LowerChar(ch) == 'd' <==> ch == 'd' || ch == 'D'
    ensures LowerChar(ch) == 'r' <==> ch == 'r' || ch == 'R'
    ensures LowerChar(ch) == 'a' <==> ch == 'a' || ch == 'A'
    ensures LowerChar(ch) == 'w' <==> ch == 'w' || ch == 'W'
    ensures LowerChar(ch) == 'n' <==> ch == 'n' || ch == 'N'
    ensures LowerChar(ch) == 'c' <==> ch == 'c' || ch == 'C'
    ensures LowerChar(ch) == '-' <==> ch == '-'
  {
  }

  lemma DrawStartsAt(text: string, i: nat)
    ensures StartsAt(Lower(text), "draw", i) <==> DrawAt(text, i)
  {
    LowerAt(text);
    if i + 4 <= |text| {
      var part := Lower(text)[i..i + 4];
      LowerLetters(text[i]);
      LowerLetters(text[i + 1]);
      LowerLetters(text[i + 2]);
      LowerLetters(text[i + 3]);
      assert part == "draw" <==> part[0] == 'd' && part[1] == 'r' && part[2] == 'a' && part[3] == 'w';
    }
  }

  lemma LowerSaysDraw(text: string)
    ensures Contains(Lower(text), "draw") <==> SaysDraw(text)
  {
    LowerAt(text);
    if i :| DrawAt(text, i) {
      DrawStartsAt(text, i);
    }
    if i :| 0 <= i <= |text| && StartsAt(Lower(text), "draw", i) {
      DrawStartsAt(text, i);
    }
  }

  // ----- no contests -----

  /** Without dashes the text ends in this character. */
  ghost predicate EndsIn(text: string, ch: char) {
    exists i :: 0 <= i < |text| && text[i] == ch && Dashes(text, i + 1, |text|)
  }

  ghost predicate PairIn(text: string) {
    exists i, j :: 0 <= i < j < |text| && text[i] == 'n' && text[j] == 'c' && Dashes(text, i + 1, j)
  }

  lemma EndsInStep(text: string, ch: char)
    requires text != "" && ch != '-'
    ensures EndsIn(text, ch) <==> if Last(text) == '-' then EndsIn(Front(text), ch) else Last(text) == ch
  {
    var front, last := Front(text), |text| - 1;
    assert forall i | 0 <= i < last :: text[i] == front[i];
    if text[last] == '-' {
      if i :| 0 <= i < |front| && front[i] == ch && Dashes(front, i + 1, |front|) {
        assert Dashes(text, i + 1, |text|);
      }
      if i :| 0 <= i < |text| && text[i] == ch && Dashes(text, i + 1, |text|) {
        assert front[i] == ch && Dashes(front, i + 1, |front|);
      }
    } else if text[last] == ch {
      assert Dashes(text, last + 1, |text|);
    }
  }

  lemma {:induction false} EndsInKept(text: string, ch: char)
    requires ch != '-'
    ensures EndsIn(text, ch) <==> Filter(NotDash(), text) != [] && Last(Filter(NotDash(), text)) == ch
  {
    if text != "" {
      EndsInKept(Front(text), ch);
      EndsInStep(text, ch);
    }
  }

  lemma PairInStep(text: string)
    requires text != ""
    ensures PairIn(text) <==> PairIn(Front(text)) || (Last(text) == 'c' && EndsIn(Front(text), 'n'))
  {
    var front, last := Front(text), |text| - 1;
    assert forall i | 0 <= i < last :: text[i] == front[i];
    if i, j :| 0 <= i < j < |text| && text[i] == 'n' && text[j] == 'c' && Dashes(text, i + 1, j) {
      if j < last {
        assert Dashes(front, i + 1, j);
      } else {
        assert front[i] == 'n' && Dashes(front, i + 1, |front|);
      }
    }
    if i, j :| 0 <= i < j < |front| && front[i] == 'n' && front[j] == 'c' && Dashes(front, i + 1, j) {
      assert text[i] == 'n' && text[j] == 'c' && Dashes(text, i + 1, j);
    }
    if Last(text) == 'c' && EndsIn(front, 'n') {
      var i :| 0 <= i < |front| && front[i] == 'n' && Dashes(front, i + 1, |front|);
      assert text[i] == 'n' && text[last] == 'c' && Dashes(text, i + 1, last);
    }
  }

  lemma ContainsStep(kept: string, ch: char)
    ensures Contains(kept + [ch], "nc") <==> Contains(kept, "nc") || (ch == 'c' && kept != "" && Last(kept) == 'n')
  {
    var more := kept + [ch];
    if Contains(more, "nc") {
      var i :| 0 <= i <= |more| && StartsAt(more, "nc", i);
      TwoAt(more, i);
      TwoAt(kept, i);
    }
    if Contains(kept, "nc") {
      var i :| 0 <= i <= |kept| && StartsAt(kept, "nc", i);
      TwoAt(kept, i);
      TwoAt(more, i);
      assert StartsAt(more, "nc", i);
    }
    if ch == 'c' && kept != "" && Last(kept) == 'n' {
      TwoAt(more, |kept| - 1);
      assert StartsAt(more, "nc", |kept| - 1);
    }
  }

  lemma TwoAt(text: string, i: nat)
    ensures StartsAt(text, "nc", i) <==> i + 2 <= |text| && text[i] == 'n' && text[i + 1] == 'c'
  {
    if i + 2 <= |text| {
      var part := text[i..i + 2];
      assert part == "nc" <==> part[0] == 'n' && part[1] == 'c';
    }
  }

  lemma {:induction false} KeptSaysPair(text: string)
    ensures Contains(Filter(NotDash(), text), "nc") <==> PairIn(text)
  {
    if text == "" {
      assert !StartsAt("", "nc", 0);
    } else {
      KeptSaysPair(Front(text));
      PairInStep(text);
      EndsInKept(Front(text), 'n');
      ContainsStep(Filter(NotDash(), Front(text)), Last(text));
    }
  }

  lemma LowerSaysNoContest(text: string)
    ensures Contains(Filter(NotDash(), Lower(text)), "nc") <==> SaysNoContest(text)
  {
    var lower := Lower(text);
    KeptSaysPair(lower);
    LowerAt(text);
    forall i | 0 <= i < |text|
      ensures lower[i] == 'n' <==> text[i] == 'n' || text[i] == 'N'
      ensures lower[i] == 'c' <==> text[i] == 'c' || text[i] == 'C'
      ensures lower[i] == '-' <==> text[i] == '-'
    {
      LowerLetters(text[i]);
    }
    if i, j :| 0 <= i < j < |lower| && lower[i] == 'n' && lower[j] == 'c' && Dashes(lower, i + 1, j) {
      assert NoContestAt(text, i, j);
    }
    if i, j :| NoContestAt(text, i, j) {
      assert lower[i] == 'n' && lower[j] == 'c' && Dashes(lower, i + 1, j);
    }
  }
}

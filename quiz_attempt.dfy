/**
 * The simplified quiz-attempt document, whose pre-save hook derives a rounded
 * percentage and a pass flag (60% pass mark) from the marks.
 */
module QuizAttempts {

  const PassMark := 60

  /**
   * `Math.round(totalMarks / maxMarks * 100)`, computed exactly:
   * `Math.round(x)` is the floor of `x + 1/2`.
   */
  function RoundedPercentage(totalMarks: int, maxMarks: int): (p: int)
    requires maxMarks > 0
    ensures 2 * maxMarks * p <= 200 * totalMarks + maxMarks < 2 * maxMarks * (p + 1)
  {
    var num := 200 * totalMarks + maxMarks;
    var den := 2 * maxMarks;
    var p := num / den;
    assert num == den * p + num % den;
    p
  }

  /**
   * An attempt passes exactly when its raw percentage is at least 59.5, the
   * value that rounds to 60: `200 * totalMarks >= 119 * maxMarks`.
   */
  lemma PassIffRawAtLeast59Point5(totalMarks: int, maxMarks: int)
    requires maxMarks > 0
    ensures RoundedPercentage(totalMarks, maxMarks) >= PassMark <==> 200 * totalMarks >= 119 * maxMarks
  {
    var p := RoundedPercentage(totalMarks, maxMarks);
    var d := 2 * maxMarks;
    if p >= PassMark {
      ScaleUp(d, PassMark, p);
    } else {
      ScaleUp(d, p + 1, PassMark);
    }
  }

  /** Multiplying by a positive factor keeps the order. */
  lemma ScaleUp(d: int, a: int, b: int)
    requires d > 0 && a <= b
    ensures d * a <= d * b
  {
    assert d * b == d * a + d * (b - a);
  }

  /** 119 marks out of 200 is 59.5%, which rounds up to 60 and passes. */
  lemma RawFiftyNinePointFivePasses()
    ensures RoundedPercentage(119, 200) == 60
  {
  }

  class QuizAttemptDoc {
    var totalMarks: int
    var maxMarks: int
    var percentage: int
    var passed: bool

    /** A new document; every omitted number defaults to 0 and `passed` to false. */
    constructor (totalMarks: int, maxMarks: int)
      ensures this.totalMarks == totalMarks && this.maxMarks == maxMarks
      ensures percentage == 0 && !passed
    {
      this.totalMarks := totalMarks;
      this.maxMarks := maxMarks;
      percentage := 0;
      passed := false;
    }

    /**
     * The pre-save hook, run on every save.  With positive `maxMarks` it
     * overwrites `percentage` and `passed`; otherwise both keep their values.
     */
    method PreSave()
      modifies this`percentage, this`passed
      ensures old(maxMarks) > 0 ==> percentage == RoundedPercentage(totalMarks, maxMarks)
      ensures old(maxMarks) > 0 ==> (passed <==> 200 * totalMarks >= 119 * maxMarks)
      ensures old(maxMarks) <= 0 ==> percentage == old(percentage) && passed == old(passed)
    {
      if maxMarks > 0 {
        percentage := RoundedPercentage(totalMarks, maxMarks);
        passed := percentage >= PassMark;
        PassIffRawAtLeast59Point5(totalMarks, maxMarks);
      }
    }
  }
}

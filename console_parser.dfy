/** `ConsoleParser.find_build`: the build number is read from the first `#`
    followed by four decimal digits in a Jenkins console text. */
module ConsoleParser {
  import opened Common
  import opened Text

  /** The pattern `#\d{4}` matches at position `i`. */
  predicate BuildTagAt(s: string, i: nat) {
    i + 5 <= |s| && s[i] == '#' && AllDigits(s[i + 1..i + 5])
  }

  /** Leftmost match at or after `from`, as `re.search` scans. */
  function LeftmostTag(s: string, from: nat): (r: Option<nat>)
    ensures r.Some? ==> from <= r.value && BuildTagAt(s, r.value)
    ensures r.Some? ==> forall j :: from <= j < r.value ==> !BuildTagAt(s, j)
    ensures r.None? ==> forall j :: from <= j ==> !BuildTagAt(s, j)
    decreases |s| - from
  {
    if from + 5 > |s| then None
    else if BuildTagAt(s, from) then Some(from)
    else LeftmostTag(s, from + 1)
  }

  /** `int(re.search(r"#\d{4}", console).group().strip('#'))`. With no match
      `re.search` gives None and `.group()` raises AttributeError. */
  function FindBuild(console: string): (r: Result<nat>)
    ensures r.Success? <==> exists i: nat :: BuildTagAt(console, i)
    ensures r.Success? ==> exists i: nat ::
      && BuildTagAt(console, i)
      && (forall j :: 0 <= j < i ==> !BuildTagAt(console, j))
      && r.value == DigitsValue(console[i + 1..i + 5])
    ensures r.Success? ==> r.value < 10000
    ensures r.Failure? ==> r.error == AttributeError("group")
  {
    match LeftmostTag(console, 0)
    case None => Failure(AttributeError("group"))
    case Some(i) =>
      var digits := console[i + 1..i + 5];
      DigitsValueBound(digits);
      assert Pow10(4) == 10000;
      Success(DigitsValue(digits))
  }

  /** Leading zeros are accepted. */
  lemma LeadingZerosAccepted()
    ensures FindBuild("#0042") == Success(42)
  {
    assert BuildTagAt("#0042", 0);
    assert "#0042"[1..5] == "0042";
    assert DigitsValue("0042") == 42 by {
      assert "0042"[..3] == "004";
      assert "004"[..2] == "00";
      assert "00"[..1] == "0";
    }
  }

  /** Only the first four digits after the `#` count. */
  lemma OnlyFourDigitsCount()
    ensures FindBuild("#12345") == Success(1234)
  {
    assert BuildTagAt("#12345", 0);
    assert "#12345"[1..5] == "1234";
    assert DigitsValue("1234") == 1234 by {
      assert "1234"[..3] == "123";
      assert "123"[..2] == "12";
      assert "12"[..1] == "1";
    }
  }

  /** A `#` that is not followed by four digits is skipped. */
  lemma ShortTagSkipped()
    ensures FindBuild("#12 #3456") == Success(3456)
  {
    var s := "#12 #3456";
    assert !BuildTagAt(s, 0) by { assert s[3] == ' '; }
    assert !BuildTagAt(s, 1) && !BuildTagAt(s, 2) && !BuildTagAt(s, 3);
    assert BuildTagAt(s, 4) by { assert s[5..9] == "3456"; }
    assert LeftmostTag(s, 0) == Some(4);
    assert s[5..9] == "3456";
    assert DigitsValue("3456") == 3456 by {
      assert "3456"[..3] == "345";
      assert "345"[..2] == "34";
      assert "34"[..1] == "3";
    }
  }

  /** Text without any `#dddd` is an error. */
  lemma NoTagIsError()
    ensures FindBuild("build #12 done").Failure?
  {
    var s := "build #12 done";
    assert !BuildTagAt(s, 0) && !BuildTagAt(s, 1) && !BuildTagAt(s, 2);
    assert !BuildTagAt(s, 3) && !BuildTagAt(s, 4) && !BuildTagAt(s, 5);
    assert !BuildTagAt(s, 6) by { assert s[9] == ' '; }
    assert !BuildTagAt(s, 7) && !BuildTagAt(s, 8) && !BuildTagAt(s, 9);
  }
}

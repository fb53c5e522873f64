/**
  The run of ComparisonFillAndSetAllMethods.main, one method per array of the
  demonstration, with the contents after each call. Printing is left out; the
  case conversion of String.toUpperCase is the parameter `upper`.
*/
module FillDemo {

  import opened Wrappers
  import opened ArrayFill

  /** `array`: a whole fill with 12, then a ranged fill of [3, 8) with 33. */
  method IntArrayTrace() returns (afterFill: seq<int>, afterRangedFill: seq<int>)
    ensures afterFill == seq(13, _ => 12)
    ensures afterRangedFill == [12, 12, 12, 33, 33, 33, 33, 33, 12, 12, 12, 12, 12]
  {
    var a := new int[] [1, 2, 2, 3, 4, 5, 6, 7, 8, 9, 9, 1, 0];
    Fill(a, 12);
    afterFill := a[..];
    var err := FillRange(a, 3, 8, 33);
    assert err == None;
    afterRangedFill := a[..];
  }

  /** `charArray`: a ranged fill of [1, 3) with 'e'. */
  method CharArrayTrace() returns (afterRangedFill: seq<char>)
    ensures afterRangedFill == ['e', 'e', 'e', 'm']
  {
    var c := new char[] ['e', 'p', 'a', 'm'];
    var err := FillRange(c, 1, 3, 'e');
    assert err == None;
    afterRangedFill := c[..];
  }

  /**
    `stringArray`: a ranged fill of [2, 4) with "Miś", then setAll with a generator
    that reads the element it replaces and converts it with `upper`.
  */
  method StringArrayTrace(upper: string -> string) returns (afterRangedFill: seq<string>, afterSetAll: seq<string>)
    ensures afterRangedFill == ["Kasia", "Monika", "Miś", "Miś", "Łukasz"]
    ensures afterSetAll == [upper("Kasia"), upper("Monika"), upper("Miś"), upper("Miś"), upper("Łukasz")]
  {
    var names := new string[] ["Kasia", "Monika", "Zuza", "Daniel", "Łukasz"];
    var err := FillRange(names, 2, 4, "Miś");
    assert err == None;
    afterRangedFill := names[..];
    var toUpper := (t: seq<string>, k: nat) => if k < |t| then upper(t[k]) else upper("");
    SetAll(names, toUpper);
    SetAllElementwise(afterRangedFill, toUpper, upper);
    afterSetAll := names[..];
  }

  /** `array2`: setAll with `index -> (index + 1) * 10`. */
  method TensTrace() returns (afterSetAll: seq<int>)
    ensures afterSetAll == [10, 20, 30, 40, 50, 60, 70, 80, 90, 100, 110, 120]
  {
    var b := new int[] [1, 2, 5, 10, 11, 12, 5, 4, 7, 8, 9, 10];
    ghost var before := b[..];
    var tens := (t: seq<int>, k: nat) => (k + 1) * 10;
    SetAll(b, tens);
    SetAllByIndex(before, tens, k => (k + 1) * 10);
    afterSetAll := b[..];
  }

  /** `array3`: setAll on ten fresh elements with `index -> index * index`, over int. */
  method SquaresTrace() returns (afterSetAll: seq<int>)
    ensures afterSetAll == [0, 1, 4, 9, 16, 25, 36, 49, 64, 81]
  {
    var d := new int[10];
    ghost var before := d[..];
    var squares := (t: seq<int>, k: nat) => k * k;
    SetAll(d, squares);
    SetAllByIndex(before, squares, k => k * k);
    afterSetAll := d[..];
  }
}

/**
 * Status-code classes: the `ranges` table and `check_range`, which names
 * the class whose range holds a status code, or gives Python's `None`.
 */
module Status {
  import opened Wrappers
  import PyText

  /** Python's `range(lo, hi)`, used here only for membership. */
  datatype Span = Span(lo: int, hi: int) {
    predicate Contains(n: int)
    {
      lo <= n < hi
    }
  }

  /** The four classes and the codes each covers. */
  const Ranges: map<string, Span> :=
    map["20x" := Span(200, 300), "30x" := Span(300, 400),
        "40x" := Span(400, 500), "50x" := Span(500, 600)]

  /** `order` lists the keys of `Ranges`, as iterating over `ranges.keys()` does, in some order. */
  predicate IsKeyOrder(order: seq<string>)
  {
    && (forall k :: k in Ranges ==> k in order)
    && (forall j :: 0 <= j < |order| ==> order[j] in Ranges)
  }

  /** One order Python may iterate the table in; any other gives the same answers. */
  const KeyOrder: seq<string> := ["20x", "30x", "40x", "50x"]

  /**
   * The class of a status code, defined independently of the table: the
   * hundreds digit followed by "0x" for codes in [200, 600), none otherwise.
   */
  function StatusClass(n: int): (c: Option<string>)
    ensures c.Some? ==> c.value in Ranges && Ranges[c.value].Contains(n)
    ensures c.None? ==> forall k :: k in Ranges ==> !Ranges[k].Contains(n)
  {
    if 200 <= n < 600 then
      HundredsLabel(n);
      Some([PyText.DigitChar(n / 100)] + "0x")
    else None
  }

  /** The name built from the hundreds digit is the key of the range holding the code. */
  lemma HundredsLabel(n: int)
    requires 200 <= n < 600
    ensures (var name := [PyText.DigitChar(n / 100)] + "0x";
             name in Ranges && Ranges[name].Contains(n))
  {
    var name := [PyText.DigitChar(n / 100)] + "0x";
    if n < 300 {
      assert n / 100 == 2 && name == "20x";
    } else if n < 400 {
      assert n / 100 == 3 && name == "30x";
    } else if n < 500 {
      assert n / 100 == 4 && name == "40x";
    } else {
      assert n / 100 == 5 && name == "50x";
    }
  }

  /** The ranges of two different classes share no code. */
  lemma RangesDisjoint(k1: string, k2: string, n: int)
    requires k1 in Ranges && k2 in Ranges
    requires Ranges[k1].Contains(n) && Ranges[k2].Contains(n)
    ensures k1 == k2
  {
  }

  /**
   * `check_range(num)`: scans the classes in the table's iteration order and
   * returns the first whose range holds `num`, or `None` after the last.
   * Because the ranges are disjoint, every iteration order gives the class
   * `StatusClass` names.
   */
  method CheckRange(num: int, order: seq<string>) returns (c: Option<string>)
    requires IsKeyOrder(order)
    ensures c == StatusClass(num)
  {
    for i := 0 to |order|
      invariant forall j :: 0 <= j < i ==> !Ranges[order[j]].Contains(num)
    {
      if Ranges[order[i]].Contains(num) {
        var k := order[i];
        assert k in Ranges;
        return Some(k);
      }
    }
    return None;
  }

  /** The answers the class table gives at and around its boundaries. */
  lemma StatusClassTable()
    ensures StatusClass(199) == None && StatusClass(600) == None
    ensures StatusClass(200) == Some("20x") && StatusClass(202) == Some("20x") && StatusClass(299) == Some("20x")
    ensures StatusClass(300) == Some("30x") && StatusClass(304) == Some("30x") && StatusClass(399) == Some("30x")
    ensures StatusClass(400) == Some("40x") && StatusClass(404) == Some("40x") && StatusClass(499) == Some("40x")
    ensures StatusClass(500) == Some("50x") && StatusClass(599) == Some("50x")
  {
  }
}

/** The product record of product.py. */
module Products {
  import opened Text

  /**
   * A product of one simulation. Price and cost are floats in the source; here
   * they are the text Python renders for them, since only that text reaches a prompt.
   */
  datatype Product = Product(id: int, name: string, desc: string, price: string, cost: string, simulationId: int)

  /** Product.to_prompt_str. */
  function ProductPromptStr(p: Product): string {
    "(product_id:" + IntToString(p.id) + ",name:" + p.name + ",description:" + p.desc + ",price:RM" + p.price + ")"
  }

  /**
   * Every field reads back from a product's prompt string at an offset fixed by
   * the lengths of the fields before it; a non-negative id reads back as its value.
   */
  lemma ProductPromptStrReadBack(p: Product)
    ensures var r, n := ProductPromptStr(p), |IntToString(p.id)|;
      var a := 18 + n + |p.name|;
      var b := a + 13 + |p.desc|;
      && |r| == b + 9 + |p.price| + 1
      && r[..12] == "(product_id:" && r[12..12 + n] == IntToString(p.id)
      && (p.id >= 0 ==> DigitsValue(r[12..12 + n]) == p.id)
      && r[12 + n..18 + n] == ",name:" && r[18 + n..a] == p.name
      && r[a..a + 13] == ",description:" && r[a + 13..b] == p.desc
      && r[b..b + 9] == ",price:RM" && r[b + 9..|r| - 1] == p.price && r[|r| - 1] == ')'
  {
    var id := IntToString(p.id);
    LabelledFields("(product_id:", id, ",name:", p.name, ",description:", p.desc, ",price:RM", p.price, ")");
    if p.id >= 0 {
      NatToStringRoundTrip(p.id);
    }
  }

  /** Four fields, each after its label, read back at the offsets the lengths before them fix. */
  lemma LabelledFields(l1: string, f1: string, l2: string, f2: string, l3: string, f3: string, l4: string, f4: string, e: string)
    ensures var r := l1 + f1 + l2 + f2 + l3 + f3 + l4 + f4 + e;
      var a := |l1| + |f1|;
      var b := a + |l2| + |f2|;
      var c := b + |l3| + |f3|;
      var d := c + |l4| + |f4|;
      && |r| == d + |e|
      && r[..|l1|] == l1 && r[|l1|..a] == f1
      && r[a..a + |l2|] == l2 && r[a + |l2|..b] == f2
      && r[b..b + |l3|] == l3 && r[b + |l3|..c] == f3
      && r[c..c + |l4|] == l4 && r[c + |l4|..d] == f4
      && r[d..] == e
  {
    var x1 := l1 + f1;
    var x2 := x1 + l2 + f2;
    var x3 := x2 + l3 + f3;
    var x4 := x3 + l4 + f4;
    var r := x4 + e;
    assert r[..|x4|] == x4 && r[|x4|..] == e;
    assert x4[..|x3|] == x3 && x4[|x3|..|x3| + |l4|] == l4 && x4[|x3| + |l4|..] == f4;
    assert x3[..|x2|] == x2 && x3[|x2|..|x2| + |l3|] == l3 && x3[|x2| + |l3|..] == f3;
    assert x2[..|x1|] == x1 && x2[|x1|..|x1| + |l2|] == l2 && x2[|x1| + |l2|..] == f2;
    assert x1[..|l1|] == l1 && x1[|l1|..] == f1;
  }
}

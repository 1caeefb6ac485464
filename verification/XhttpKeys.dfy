/** The cache keys of the xhttp service: `item:<id>` in decimal, and `list`. */
module XhttpKeys {
  import opened Decimals

  const LIST_KEY := "list"

  function ItemKey(id: int): string {
    "item:" + Decimal(id)
  }

  /** No two ids share a key, and no id's key is the list's. */
  lemma KeysNeverCollide(a: int, b: int)
    ensures ItemKey(a) == ItemKey(b) <==> a == b
    ensures ItemKey(a) != LIST_KEY
  {
    hide Decimal;
    assert ItemKey(a)[0] == 'i' && LIST_KEY[0] == 'l';
    if ItemKey(a) == ItemKey(b) {
      assert Decimal(a) == ItemKey(a)[|"item:"|..] && Decimal(b) == ItemKey(b)[|"item:"|..];
      DecimalInjective(a, b);
    }
  }
}

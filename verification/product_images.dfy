/** `getProductImage`, shared by the farmer market and the buyer
    marketplace: the first keyword, in a fixed order, that the lower-cased
    product type includes picks the picture; otherwise the default one. */
module ProductImages {
  import Text

  /** A keyword and the picture it selects. */
  datatype Rule = Rule(keyword: string, image: string)

  /** The rules in the order they are tried. */
  const Rules: seq<Rule> := [
    Rule("maize", "/images/maize.jpg"),
    Rule("mango", "/images/mango.jpg"),
    Rule("beef", "/images/beef.webp"),
    Rule("fertilizer", "/images/fertilizer.jpg"),
    Rule("beans", "/images/beans.jpg"),
    Rule("tomato", "/images/tomatoes.webp")]

  const DefaultImage := "/images/default.jpg"

  /** Rule `i` fires on `lowered` and no earlier rule does. */
  predicate FirstFires(lowered: string, i: int)
    requires 0 <= i < |Rules|
  {
    Text.Contains(lowered, Rules[i].keyword)
    && forall j :: 0 <= j < i ==> !Text.Contains(lowered, Rules[j].keyword)
  }

  /** The index of the first rule from `i` on whose keyword `lowered`
      includes, or `|Rules|` when there is none. */
  function FirstRule(lowered: string, i: nat): (r: nat)
    requires i <= |Rules|
    ensures i <= r <= |Rules|
    ensures r < |Rules| ==> Text.Contains(lowered, Rules[r].keyword)
    ensures forall j :: i <= j < r ==> !Text.Contains(lowered, Rules[j].keyword)
    decreases |Rules| - i
  {
    if i == |Rules| then i
    else if Text.Contains(lowered, Rules[i].keyword) then i
    else FirstRule(lowered, i + 1)
  }

  /** The picture shown for a product type: rule `i`'s picture exactly when
      rule `i` is the first whose keyword the lower-cased type includes, the
      default picture exactly when no keyword is included. */
  function ProductImage(productType: string): (r: string)
    ensures forall i :: 0 <= i < |Rules| ==> (r == Rules[i].image <==> FirstFires(Text.Lower(productType), i))
    ensures r == DefaultImage <==> forall j :: 0 <= j < |Rules| ==> !Text.Contains(Text.Lower(productType), Rules[j].keyword)
  {
    var k := FirstRule(Text.Lower(productType), 0);
    if k < |Rules| then Rules[k].image else DefaultImage
  }

  /** The choice ignores ASCII letter case: a type, its lower-case and its
      upper-case spelling show the same picture. */
  lemma ImageIgnoresCase(productType: string)
    ensures ProductImage(Text.Upper(productType)) == ProductImage(productType)
    ensures ProductImage(Text.Lower(productType)) == ProductImage(productType)
  {
    Text.LowerOfUpper(productType);
    Text.LowerIdempotent(productType);
  }

  /** The order of the rules matters: a type that includes both "maize"
      and "beans" shows maize. */
  lemma EarlierRuleWins(productType: string)
    requires Text.Contains(Text.Lower(productType), "maize")
    requires Text.Contains(Text.Lower(productType), "beans")
    ensures ProductImage(productType) == "/images/maize.jpg"
  {
    assert FirstFires(Text.Lower(productType), 0);
  }
}

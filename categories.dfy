/**
 * The label encoding of the training data: the target column is made
 * categorical, `dict(enumerate(categories))` maps each code to its label,
 * the column is replaced by its codes, and a predicted code is decoded back
 * through that mapping.
 */
module Categories {
  import opened Wrappers

  /** No label appears twice among the categories (pandas guarantees this of its categories). */
  predicate Distinct(c: seq<string>)
  {
    forall i, j :: 0 <= i < j < |c| ==> c[i] != c[j]
  }

  /**
   * `dict(enumerate(categories))`: the pairs (i, categories[i]) are inserted
   * in order, so the keys are exactly 0 .. n-1 and key i holds the i-th category.
   */
  function CategoryMapping(categories: seq<string>): (m: map<int, string>)
    ensures forall k :: k in m <==> 0 <= k < |categories|
    ensures forall k :: 0 <= k < |categories| ==> m[k] == categories[k]
  {
    if categories == [] then map[]
    else
      var n := |categories| - 1;
      CategoryMapping(categories[..n])[n := categories[n]]
  }

  /**
   * The code `cat.codes` gives one label: its position among the categories,
   * or -1 when it is not one of them.
   */
  function CodeOf(categories: seq<string>, name: string): (code: int)
    ensures -1 <= code < |categories|
    ensures code == -1 <==> name !in categories
    ensures 0 <= code ==> categories[code] == name && name !in categories[..code]
  {
    if categories == [] then -1
    else if categories[0] == name then 0
    else
      var k := CodeOf(categories[1..], name);
      if k == -1 then -1
      else
        assert categories[..k + 1] == [categories[0]] + categories[1..][..k];
        k + 1
  }

  /** `column.cat.codes`: every row replaced by its label's code. */
  function Encode(categories: seq<string>, column: seq<string>): (codes: seq<int>)
    ensures |codes| == |column|
    ensures forall j :: 0 <= j < |column| ==> codes[j] == CodeOf(categories, column[j])
  {
    seq(|column|, j requires 0 <= j < |column| => CodeOf(categories, column[j]))
  }

  /** `category_mapping[code]`; a code that is not a key raises KeyError, here None. */
  function Decode(mapping: map<int, string>, code: int): (r: Option<string>)
    ensures r.Some? <==> code in mapping
    ensures r.Some? ==> r.value in mapping.Values
  {
    if code in mapping then Some(mapping[code]) else None
  }

  /** The mapping has one entry per category. */
  lemma {:induction false} MappingSize(categories: seq<string>)
    ensures |CategoryMapping(categories)| == |categories|
  {
    if categories != [] {
      var n := |categories| - 1;
      MappingSize(categories[..n]);
      assert n !in CategoryMapping(categories[..n]);
    }
  }

  /** The mapping's values are exactly the categories. */
  lemma MappingValues(categories: seq<string>)
    ensures CategoryMapping(categories).Values == set i | 0 <= i < |categories| :: categories[i]
  {
  }

  /** Distinct categories give an injective mapping: no two codes decode to the same label. */
  lemma MappingInjective(categories: seq<string>, k1: int, k2: int)
    requires Distinct(categories)
    requires k1 in CategoryMapping(categories) && k2 in CategoryMapping(categories)
    requires k1 != k2
    ensures CategoryMapping(categories)[k1] != CategoryMapping(categories)[k2]
  {
  }

  /** Encoding a label and decoding its code gives the label back. */
  lemma EncodeDecode(categories: seq<string>, name: string)
    requires name in categories
    ensures Decode(CategoryMapping(categories), CodeOf(categories, name)) == Some(name)
  {
  }

  /** Decoding a code and encoding its label gives the code back, when the categories are distinct. */
  lemma DecodeEncode(categories: seq<string>, code: int)
    requires Distinct(categories)
    requires 0 <= code < |categories|
    ensures Decode(CategoryMapping(categories), code).Some?
    ensures CodeOf(categories, Decode(CategoryMapping(categories), code).value) == code
  {
  }

  /** A code outside 0 .. n-1 is not a key: decoding it fails. */
  lemma DecodeOutOfRange(categories: seq<string>, code: int)
    requires code < 0 || |categories| <= code
    ensures Decode(CategoryMapping(categories), code) == None
  {
  }

  /** Encoding a whole column and decoding every code gives the column back. */
  lemma ColumnRoundTrip(categories: seq<string>, column: seq<string>, j: int)
    requires forall i :: 0 <= i < |column| ==> column[i] in categories
    requires 0 <= j < |column|
    ensures 0 <= Encode(categories, column)[j] < |categories|
    ensures Decode(CategoryMapping(categories), Encode(categories, column)[j]) == Some(column[j])
  {
  }

  /** The target column of the data frame: labels before encoding, codes after. */
  datatype Column = Labels(labels: seq<string>) | Codes(codes: seq<int>)

  /** The loaded data set: nine feature columns per row and the target column. */
  class Frame {
    var features: seq<seq<int>>
    var target: Column

    constructor (features: seq<seq<int>>, labels: seq<string>)
      ensures this.features == features && target == Labels(labels)
    {
      this.features := features;
      target := Labels(labels);
    }

    /**
     * Makes the target column categorical over the given categories, keeps
     * the code-to-label mapping, and replaces the column by its codes in place.
     */
    method Categorize(categories: seq<string>) returns (mapping: map<int, string>)
      requires target.Labels?
      modifies this
      ensures features == old(features)
      ensures mapping == CategoryMapping(categories)
      ensures target == Codes(Encode(categories, old(target).labels))
    {
      mapping := CategoryMapping(categories);
      target := Codes(Encode(categories, target.labels));
    }
  }
}

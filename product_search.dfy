/**
 * The product search predicates. The API's listing and the inventory screen lowercase the
 * term once and compare the barcode with the lowercased term; the cashier screen lowercases
 * name, sku and term but compares the barcode with the term as typed.
 */
module ProductSearch {
  import opened Json
  import opened Text

  /**
   * The search callback for the lowercased `term` evaluates without throwing. `name` must be a
   * string; `||` reads `sku` only when the name test fails, and the barcode only when both fail,
   * and then the barcode must be falsy or a string (`.includes` on anything else throws).
   */
  predicate SearchReads(p: Record, term: string) {
    && Field(p, "name").Str?
    && (|| Includes(Lower(StrField(p, "name")), term)
        || (&& Field(p, "sku").Str?
            && (Includes(Lower(StrField(p, "sku")), term) || Falsy(Field(p, "barcode")) || Field(p, "barcode").Str?)))
  }

  /** The search for an already lowercased term: the barcode is compared as stored. */
  predicate MatchesTerm(p: Record, term: string) {
    || Includes(Lower(StrField(p, "name")), term)
    || Includes(Lower(StrField(p, "sku")), term)
    || (!Falsy(Field(p, "barcode")) && Includes(StrField(p, "barcode"), term))
  }

  /** The cashier screen's search: name and sku case-insensitively, the barcode against the raw term. */
  predicate CashierMatches(p: Record, search: string) {
    || Includes(Lower(StrField(p, "name")), Lower(search))
    || Includes(Lower(StrField(p, "sku")), Lower(search))
    || (!Falsy(Field(p, "barcode")) && Includes(StrField(p, "barcode"), search))
  }

  /** For a term typed without capitals the two searches agree. */
  lemma SearchesAgreeOnLowercase(p: Record, search: string)
    requires Lower(search) == search
    ensures CashierMatches(p, search) <==> MatchesTerm(p, Lower(search))
  {
  }

  /** A capitalised barcode fragment finds the item on the cashier screen but not on the inventory screen. */
  lemma SearchesDifferOnCapitals()
    ensures var p := map["name" := Str("X"), "sku" := Str("X"), "barcode" := Str("AB")];
            CashierMatches(p, "AB") && !MatchesTerm(p, Lower("AB"))
  {
    var p := map["name" := Str("X"), "sku" := Str("X"), "barcode" := Str("AB")];
    assert Lower("AB") == "ab";
    assert |Lower(StrField(p, "name"))| == 1 && |Lower(StrField(p, "sku"))| == 1;
    assert "AB"[..2] == "AB";
    assert !Includes("AB", "ab") by {
      assert "AB"[..2] != "ab";
      assert !Includes("AB"[1..], "ab");
    }
  }
}

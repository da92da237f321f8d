/** A tour's pricing option and the rule its save hook applies: whichever of the
    discount percentage and the special price is given, the other is derived from
    the option price. Decimal arithmetic is exact here (`real`); the two-place
    quantisation of the stored columns happens outside this model. */
module Pricing {
  import opened Wrappers

  /** The option's structured `includes` data; its JSON contents are not interpreted. */
  datatype Includes = Includes(json: string)

  /** What dividing by a zero option price raises: a non-zero dividend gives
      DivisionByZero, a zero dividend (0/0) gives InvalidOperation (the
      DivisionUndefined condition), which is not a ZeroDivisionError. */
  datatype SaveError = DivisionByZero | InvalidOperation

  /** The price after taking `discount` percent off `price`. */
  function SpecialFromDiscount(price: real, discount: real): real
  {
    price - price * (discount / 100.0)
  }

  /** The percentage that `special` takes off `price`. */
  function DiscountFromSpecial(price: real, special: real): real
    requires price != 0.0
  {
    (price - special) / price * 100.0
  }

  /** The three price fields of an option, the only ones save reads or writes. */
  datatype Prices = Prices(optionPrice: real, specialPrice: Option<real>, discountPercentage: Option<real>)

  /** Both derived fields are present and the special price is the option price
      less the discount percentage of it. */
  ghost predicate Consistent(p: Prices)
  {
    p.specialPrice.Some? && p.discountPercentage.Some? &&
    p.specialPrice.value * 100.0 == p.optionPrice * (100.0 - p.discountPercentage.value)
  }

  /** The price fields as save leaves them, or the error it raises. */
  function Derive(p: Prices): (r: Result<Prices, SaveError>)
    ensures r.Err? <==> p.discountPercentage.None? && p.specialPrice.Some? && p.optionPrice == 0.0
    ensures r.Ok? ==> r.value.optionPrice == p.optionPrice
    ensures r.Ok? && p.discountPercentage.Some? ==> r.value.discountPercentage == p.discountPercentage
    ensures r.Ok? && p.discountPercentage.None? ==> r.value.specialPrice == p.specialPrice
  {
    match p.discountPercentage
    case Some(d) =>
      Ok(p.(specialPrice := Some(SpecialFromDiscount(p.optionPrice, d))))
    case None =>
      match p.specialPrice
      case None => Ok(p)
      case Some(s) =>
        if p.optionPrice == 0.0 then
          Err(if p.optionPrice - s == 0.0 then InvalidOperation else DivisionByZero)
        else
          Ok(p.(discountPercentage := Some(DiscountFromSpecial(p.optionPrice, s))))
  }

  /** The special price `price * (100 - d) / 100` satisfies the consistency equation. */
  lemma SpecialFromDiscountConsistent(price: real, d: real)
    ensures SpecialFromDiscount(price, d) * 100.0 == price * (100.0 - d)
  {
  }

  /** On a non-zero price, the discount derived from a special price satisfies the equation. */
  lemma DiscountFromSpecialConsistent(price: real, s: real)
    requires price != 0.0
    ensures s * 100.0 == price * (100.0 - DiscountFromSpecial(price, s))
  {
  }

  /** On a non-zero price the equation fixes the discount from the special price and back. */
  lemma ConsistentDetermines(p: Prices)
    requires Consistent(p) && p.optionPrice != 0.0
    ensures p.discountPercentage.value == DiscountFromSpecial(p.optionPrice, p.specialPrice.value)
    ensures p.specialPrice.value == SpecialFromDiscount(p.optionPrice, p.discountPercentage.value)
  {
  }

  /** Whenever one of the two fields was given and save succeeds, both are present and consistent. */
  lemma DeriveConsistent(p: Prices)
    requires Derive(p).Ok?
    requires p.discountPercentage.Some? || p.specialPrice.Some?
    ensures Consistent(Derive(p).value)
  {
  }

  /** When both fields are given the caller's special price is ignored: the result is
      what the discount alone gives, and the discount is kept. */
  lemma DiscountTakesPrecedence(p: Prices)
    requires p.discountPercentage.Some? && p.specialPrice.Some?
    ensures Derive(p) == Derive(p.(specialPrice := None))
    ensures Derive(p).Ok? && Derive(p).value.discountPercentage == p.discountPercentage
    ensures Derive(p).value.specialPrice == Some(SpecialFromDiscount(p.optionPrice, p.discountPercentage.value))
  {
  }

  /** With neither field given, save changes nothing. */
  lemma NeitherGivenUnchanged(p: Prices)
    requires p.discountPercentage.None? && p.specialPrice.None?
    ensures Derive(p) == Ok(p)
  {
  }

  /** Saving an option that was saved before changes neither derived field. */
  lemma {:induction false} DeriveIdempotent(p: Prices)
    requires Derive(p).Ok?
    ensures Derive(Derive(p).value) == Derive(p)
  {
    var q := Derive(p).value;
    if p.discountPercentage.Some? || p.specialPrice.Some? {
      DeriveConsistent(p);
      if p.discountPercentage.None? {
        ConsistentDetermines(q);
      }
    }
  }

  /** Feeding back alone the special price derived from discount `d` yields `d` again. */
  lemma DiscountRoundTrip(price: real, d: real)
    requires price != 0.0
    ensures Derive(Prices(price, Some(SpecialFromDiscount(price, d)), None))
         == Ok(Prices(price, Some(SpecialFromDiscount(price, d)), Some(d)))
  {
    var s := SpecialFromDiscount(price, d);
    ConsistentDetermines(Prices(price, Some(s), Some(d))) by {
      SpecialFromDiscountConsistent(price, d);
    }
  }

  /** Feeding back alone the discount derived from special price `s` yields `s` again. */
  lemma SpecialRoundTrip(price: real, s: real)
    requires price != 0.0
    ensures Derive(Prices(price, None, Some(DiscountFromSpecial(price, s))))
         == Ok(Prices(price, Some(s), Some(DiscountFromSpecial(price, s))))
  {
    var d := DiscountFromSpecial(price, s);
    ConsistentDetermines(Prices(price, Some(s), Some(d))) by {
      DiscountFromSpecialConsistent(price, s);
    }
  }

  /** A discount between 0 and 100 percent gives a special price between 0 and the price. */
  lemma SpecialWithinPrice(price: real, d: real)
    requires price >= 0.0 && 0.0 <= d <= 100.0
    ensures 0.0 <= SpecialFromDiscount(price, d) <= price
  {
  }

  /** A special price between 0 and a positive price gives a discount between 0 and 100 percent. */
  lemma DiscountWithinPercent(price: real, s: real)
    requires price > 0.0 && 0.0 <= s <= price
    ensures 0.0 <= DiscountFromSpecial(price, s) <= 100.0
  {
  }

  /** 20% off 100.00 is 80.00. */
  lemma ScenarioDiscount()
    ensures Derive(Prices(100.0, None, Some(20.0))) == Ok(Prices(100.0, Some(80.0), Some(20.0)))
  {
  }

  /** 75.00 out of 100.00 is 25% off. */
  lemma ScenarioSpecial()
    ensures Derive(Prices(100.0, Some(75.0), None)) == Ok(Prices(100.0, Some(75.0), Some(25.0)))
  {
  }

  /** A pricing option of a tour. */
  class PricingOption {
    var tour: nat
    var optionName: string
    var optionPrice: real
    var specialPrice: Option<real>
    var discountPercentage: Option<real>
    var includes: Option<Includes>

    function PriceFields(): (p: Prices)
      reads this
      ensures p.optionPrice == optionPrice
    {
      Prices(optionPrice, specialPrice, discountPercentage)
    }

    constructor (tour: nat, optionName: string, optionPrice: real,
                 specialPrice: Option<real>, discountPercentage: Option<real>, includes: Option<Includes>)
      ensures this.tour == tour && this.optionName == optionName && this.optionPrice == optionPrice
      ensures this.specialPrice == specialPrice && this.discountPercentage == discountPercentage
      ensures this.includes == includes
    {
      this.tour := tour;
      this.optionName := optionName;
      this.optionPrice := optionPrice;
      this.specialPrice := specialPrice;
      this.discountPercentage := discountPercentage;
      this.includes := includes;
    }

    /** Recomputes the derived field before the row is written; a zero option price
        in the special-price branch raises and leaves every field as it was. */
    method Save() returns (error: Option<SaveError>)
      modifies this
      ensures tour == old(tour) && optionName == old(optionName) && optionPrice == old(optionPrice)
      ensures includes == old(includes)
      ensures Derive(old(PriceFields())).Ok? ==> error == None && PriceFields() == Derive(old(PriceFields())).value
      ensures Derive(old(PriceFields())).Err? ==>
                error == Some(Derive(old(PriceFields())).error) && PriceFields() == old(PriceFields())
    {
      error := None;
      if discountPercentage.Some? {
        specialPrice := Some(optionPrice - optionPrice * (discountPercentage.value / 100.0));
      } else if specialPrice.Some? {
        if optionPrice == 0.0 {
          error := Some(if optionPrice - specialPrice.value == 0.0 then InvalidOperation else DivisionByZero);
          return;
        }
        discountPercentage := Some((optionPrice - specialPrice.value) / optionPrice * 100.0);
      }
    }
  }
}

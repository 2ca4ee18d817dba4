/**
  The plural categories of Russian cardinal numbers as the Unicode CLDR
  plural rules define them, restricted to non-negative integers (where the
  category "other", used for fractions, never occurs). This is the reference
  the app's count labels are measured against.
 */
module RussianPlural {

  datatype Category = One | Few | Many

  /**
    CLDR, Russian, integer operand i:
      one:  i % 10 = 1 and i % 100 != 11
      few:  i % 10 = 2..4 and i % 100 != 12..14
      many: i % 10 = 0, or i % 10 = 5..9, or i % 100 = 11..14
   */
  function CategoryOf(n: nat): Category
  {
    var i10, i100 := n % 10, n % 100;
    if i10 == 1 && i100 != 11 then One
    else if 2 <= i10 <= 4 && !(12 <= i100 <= 14) then Few
    else Many
  }

  /** A category's noun form, given the three forms of the noun. */
  function FormOf(c: Category, one: string, few: string, many: string): string
  {
    match c
    case One => one
    case Few => few
    case Many => many
  }

  /**
    The app's own way of declining a noun after a count: "many" for a last
    two digits of 11..19, otherwise by the last digit (1, 2..4, the rest).
   */
  function ByLastDigits(n: nat, one: string, few: string, many: string): (r: string)
    ensures 11 <= n % 100 <= 19 ==> r == many
    ensures r == one || r == few || r == many
  {
    var lastDigit := n % 10;
    var lastTwoDigits := n % 100;
    if 11 <= lastTwoDigits <= 19 then many
    else if lastDigit == 1 then one
    else if 2 <= lastDigit <= 4 then few
    else many
  }

  /** Declining by the last digits picks the form of the CLDR category. */
  lemma ByLastDigitsFollowsCldr(n: nat, one: string, few: string, many: string)
    ensures ByLastDigits(n, one, few, many) == FormOf(CategoryOf(n), one, few, many)
  {
  }
}

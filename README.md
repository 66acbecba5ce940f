# FormUI: cascading selection and price total

A Dafny model of the logic in the React form `src/pages/FormUI.jsx`. The
form picks a country (negara), then a port (pelabuhan) of that country,
then an item (barang) at that port. It then shows the item's discount,
price and description, and a discounted total computed from the price and
discount texts.

The model has five modules:

- `Wrappers` (`wrappers.dfy`): `Option`.
- `Records` (`records.dfy`): the three record kinds and the JSON scalars an
  item carries. It also holds `Find`, the first-match search of
  `Array.prototype.find`, proved against a first-index reference.
- `JsNumber` (`js_number.dfy`): the two conversions the form relies on.
  - `String(n)` for integer-valued numbers.
  - `parseFloat`: leading white space, an optional sign, the longest decimal
    literal with an optional fraction and exponent, and `NaN` as `None`.

  Values are exact reals. The main result is that `parseFloat(String(n))`
  is `n` for every integer `n`.
- `Pricing` (`pricing.dfy`): the total effect's arithmetic.
  - The price text is stripped to `[0-9,]`, then its first comma becomes `.`.
  - Price and discount are read with `parseFloat(...) || 0`.
  - The total is `Rupiah(price * (1 - discount/100))` when the price is
    positive and `Blank` (the empty string) otherwise.

  The parsed price is proved equal to a direct reading of the stripped
  digits. Localised currency formatting is kept abstract: `Rupiah(amount)`
  stands for the formatted text of `amount`.
- `FormPage` (`form_ui.dfy`): the component as a class, `FormUI`.
  - Each `useState` variable is a field.
  - The antd form's field values are a separate `Fields` record.
  - Each handler and each effect is a method.
  - The list a fetch would return is a parameter.
  - `SelectNegara`, `SelectPelabuhan`, `SelectBarang`, `EditDiscount` and
    `EditHarga` are the user events. Each runs the handler, then every
    effect whose dependency changed, in declaration order.
  - Each event is proved to keep the invariant `Settled`, as follows.
    - A lower level has options and a selection only under a selected
      parent.
    - A selection is one of the loaded options.
    - The total matches the current texts.

  Each event's contract states the whole new state.

`Choice<T>` separates `null` (`Cleared`, what the handlers and effects
store) from `undefined` (`NotFound`, what `find` returns without a match).
Both are falsy, but React's dependency comparison tells them apart, so an
effect reruns when a selection moves from one to the other.

In these places the code behaves differently from what a reader may
expect; the model follows the code:

- **The country-list effect sets only the `negara` field.** It never sets
  the selected country, so no port list is requested (`LoadNegaras`). The
  first effect pass before it (`Mount`) already wrote `''` into the
  `description`, `discount`, `harga` and `total` fields and `undefined`
  into `pelabuhan` and `barang`. With no country
  coded `ID`, reading `id_negara` of `null` throws and the error message is
  shown; the model returns this as `errorShown`.
- **A `-` is not kept in the price.** It is stripped like any other
  character, so a negative item price gives a non-blank total computed
  from the price's magnitude (`PriceMinusDropped`, `ItemPriceValue`,
  `ItemTotal`).
- **A `.` is not kept in the price either.** It is stripped, so `12.5` reads
  as `125` (`PriceDotDropped`). Only a comma marks decimals.
- **Changing country or port does not always clear the texts.** The price
  and discount texts are cleared only when an item was selected before,
  because the item effect runs only when its selection changes. The
  `discount`, `harga` and `total` fields are reset to `undefined` by
  `resetFields`, while text typed into the price or discount stays in the
  state (`SelectNegara`, `SelectPelabuhan`).
- **Picking an item overrides edits only on a change.** Typed edits are
  replaced by the item's values only when the selection changes. Picking
  the selected item again keeps them (`SelectBarang`).
- **`handleBarangChange` throws on an unknown id.** With no matching item,
  reading `description` of `undefined` throws after the selection was
  stored (`HandleBarangChange` returns `crashed`). The item effect still
  runs on the next render.
- **Picking in a Select writes no form field.** The three Selects sit inside
  a `Spin`, so the `Form.Item` does not bind them. The discount and price
  Inputs are direct children, so typing also writes their fields
  (`EditDiscount`, `EditHarga`).

## Model

| member | source | states |
|---|---|---|
| Records.Find | src/pages/FormUI.jsx:155 | `find` never yields `null`; a found element is in the list and satisfies the predicate |
| Records.FirstIndex | src/pages/FormUI.jsx:155 | reference search: no index exactly when no element matches; otherwise a matching index with no match before it |
| Records.FindIsFirst | src/pages/FormUI.jsx:155 | `find` is `undefined` exactly when there is no match, and otherwise is the element at the first matching index |
| Records.FindNone | src/pages/FormUI.jsx:163 | `find` is `undefined` exactly when no element satisfies the predicate |
| Records.NegaraWithId | src/pages/FormUI.jsx:155 | the matcher `n => n.id_negara === value`, used by `HandleNegaraChange` through `Find`, `FindIsFirst` and `FindNone` |
| Records.PelabuhanWithId | src/pages/FormUI.jsx:163 | the matcher `p => p.id_pelabuhan === value`, used by `HandlePelabuhanChange` |
| Records.BarangWithId | src/pages/FormUI.jsx:170 | the matcher `b => b.id_barang === value`, used by `HandleBarangChange` |
| Records.IsDefaultNegara | src/pages/FormUI.jsx:57 | the matcher `n => n.kode_negara === 'ID'`, used by `LoadNegaras` |
| JsNumber.IntToString | src/pages/FormUI.jsx:119-120 | `String(n)` is non-empty, starts with `-` exactly for negative `n`, and is all digits otherwise |
| JsNumber.NatToStringValue | src/pages/FormUI.jsx:119-120 | reading the decimal numeral of `n` back gives `n` |
| JsNumber.TrimStart | src/pages/FormUI.jsx:139 | the skipped prefix is removed from the front and the result does not start with white space |
| JsNumber.TrimStartSkipsOnlyWhiteSpace | src/pages/FormUI.jsx:139 | every character `TrimStart` skips is white space |
| JsNumber.DigitRun | src/pages/FormUI.jsx:139 | the longest digit prefix: all digits, followed by a non-digit or the end |
| JsNumber.ScanUnsigned | src/pages/FormUI.jsx:139 | a recognised literal has digit-only whole and fraction parts with at least one digit |
| JsNumber.ScanFloat | src/pages/FormUI.jsx:139 | every numeral `parseFloat` reads is well formed |
| JsNumber.ParseFloat | src/pages/FormUI.jsx:138-139 | `parseFloat`: the value of the numeral `ScanFloat` reads, `None` for `NaN`; proved in ParseFloatInteger, ParseFloatDecimal, ParseFloatNegative, ParseFloatNothing, ParseFloatLoneDot and IntToStringRoundTrip |
| JsNumber.OrZero | src/pages/FormUI.jsx:138-139 | the `or 0` fallback on the result of `parseFloat`: `NaN` becomes 0; used by `NumberOrZero` |
| JsNumber.LiteralValue | src/pages/FormUI.jsx:139 | an unsigned literal never denotes a negative value |
| JsNumber.ScanInteger | src/pages/FormUI.jsx:139 | digits followed by a character that cannot continue a number are a whole literal with exponent 0 |
| JsNumber.ScanDecimal | src/pages/FormUI.jsx:138-139 | digits, `.`, digits (at least one digit) and an end that cannot continue the number are a literal with that fraction |
| JsNumber.ScanNothing | src/pages/FormUI.jsx:139 | text starting with neither a digit nor `.` holds no literal |
| JsNumber.ScanLoneDot | src/pages/FormUI.jsx:138-139 | a `.` with no digit on either side holds no literal |
| JsNumber.ScanFloatUnsigned | src/pages/FormUI.jsx:139 | without leading white space or sign, `parseFloat` reads the unsigned literal as a positive numeral |
| JsNumber.ScanFloatMinus | src/pages/FormUI.jsx:139 | a leading `-` reads the literal after it as a negative numeral |
| JsNumber.ScanFloatSkipsWhiteSpace | src/pages/FormUI.jsx:139 | a leading white-space character does not change what `parseFloat` reads |
| JsNumber.ParseFloatUnsignedNonNegative | src/pages/FormUI.jsx:138 | text with no leading white space or sign never parses to a negative number |
| JsNumber.ParseFloatInteger | src/pages/FormUI.jsx:139 | digits followed by a non-continuing character parse to the digits' value |
| JsNumber.ParseFloatDecimal | src/pages/FormUI.jsx:138 | `a.b` followed by a non-continuing character parses to the digits of `ab` divided by ten per fraction digit |
| JsNumber.ParseFloatNothing | src/pages/FormUI.jsx:139 | text starting with no white space, sign, digit or `.` is `NaN` |
| JsNumber.ParseFloatLoneDot | src/pages/FormUI.jsx:138 | a `.` without digits around it is `NaN` |
| JsNumber.ParseFloatNegative | src/pages/FormUI.jsx:139 | a `-` before a literal negates its value |
| JsNumber.ScanNatToString | src/pages/FormUI.jsx:119-120 | the numeral of `m` scans as a whole literal whose value is `m` |
| JsNumber.NonNegativeRoundTrip | src/pages/FormUI.jsx:119-139 | `parseFloat(String(n)) == n` for `n >= 0` |
| JsNumber.NegativeRoundTrip | src/pages/FormUI.jsx:119-139 | `parseFloat("-" + String(m)) == -m` |
| JsNumber.IntToStringRoundTrip | src/pages/FormUI.jsx:119-139 | `parseFloat(String(n)) == n` for every integer `n`: the texts the item effect writes read back as the item's numbers |
| Pricing.StripPrice | src/pages/FormUI.jsx:138 | stripping never lengthens the text and leaves only digits and commas |
| Pricing.StripPriceConcat | src/pages/FormUI.jsx:138 | stripping distributes over concatenation |
| Pricing.StripPriceKeeps | src/pages/FormUI.jsx:138 | text of digits and commas only is unchanged by stripping |
| Pricing.StripPriceIdempotent | src/pages/FormUI.jsx:138 | stripping twice is stripping once |
| Pricing.StripPriceCounts | src/pages/FormUI.jsx:138 | every digit and comma keeps its number of occurrences; every other character disappears |
| Pricing.ReplaceFirstComma | src/pages/FormUI.jsx:138 | the replacement keeps the length |
| Pricing.ReplaceFirstCommaNone | src/pages/FormUI.jsx:138 | text without a comma is unchanged |
| Pricing.ReplaceFirstCommaAt | src/pages/FormUI.jsx:138 | exactly the first comma becomes `.`; nothing else changes, later commas included |
| Pricing.NormalisedPriceShape | src/pages/FormUI.jsx:138 | the normalised price holds only digits, commas and `.`, and only digits come before a `.` |
| Pricing.NormalisedPrice | src/pages/FormUI.jsx:138 | the two `replace` calls: strip, then the first comma becomes `.`; proved in NormalisedPriceShape and NormalisedAtComma |
| Pricing.NumberOrZero | src/pages/FormUI.jsx:138-139 | `parseFloat(s)` with the `or 0` fallback; proved in UnparsedDiscountIsNoDiscount and ItemDiscountValue |
| Pricing.PriceValue | src/pages/FormUI.jsx:138 | `numericHarga`; proved in PriceNonNegative, PriceWithoutComma, PriceWithComma and PriceValueIsReference |
| Pricing.DiscountValue | src/pages/FormUI.jsx:139 | `numericDiscount`; proved in ItemDiscountValue and UnparsedDiscountIsNoDiscount |
| Pricing.Discounted | src/pages/FormUI.jsx:141-148 | the total rule on parsed values; proved in DiscountedBlankIff and DiscountedWithinPrice |
| Pricing.TotalOf | src/pages/FormUI.jsx:138-148 | the total rule on the two texts, set as `totalRule` by the constructor; proved in TotalBlankIff, TotalWithinPrice, ItemTotal and EmptyTotal |
| Pricing.PriceNonNegative | src/pages/FormUI.jsx:138 | the parsed price is never negative |
| Pricing.PriceWithoutComma | src/pages/FormUI.jsx:138 | with no comma left after stripping, the price is the value of the stripped digits (0 when there are none) |
| Pricing.NormalisedAtComma | src/pages/FormUI.jsx:138 | when the stripped text is `a,b…` with digits `a`, the normalised text is `a.b…` |
| Pricing.PriceWithComma | src/pages/FormUI.jsx:138 | when the stripped text is `a,b` then another comma or the end, the price is the digits of `ab` divided by ten per digit of `b` |
| Pricing.ReferenceWithoutComma | src/pages/FormUI.jsx:138 | without a comma, the parsed price agrees with the direct reading of the digits |
| Pricing.ReferenceWithComma | src/pages/FormUI.jsx:138 | with a comma, the parsed price agrees with the direct reading: whole digits, then the digit run after the first comma as the fraction |
| Pricing.PriceValueIsReference | src/pages/FormUI.jsx:138 | for every price text, the parsed price equals the direct decimal reading of its stripped text, the first comma being the decimal point |
| Pricing.PriceDotDropped | src/pages/FormUI.jsx:138 | a `.` between digits is stripped, so `a.b` prices as the whole number `ab` |
| Pricing.PriceMinusDropped | src/pages/FormUI.jsx:138 | a leading `-` is stripped, so it does not change the price |
| Pricing.DiscountedBlankIff | src/pages/FormUI.jsx:141-148 | for a non-negative price, the total is blank exactly when the price is 0 |
| Pricing.DiscountedWithinPrice | src/pages/FormUI.jsx:141-142 | a discount between 0 and 100 percent gives a total between 0 and the price |
| Pricing.TotalBlankIff | src/pages/FormUI.jsx:138-148 | the total is the empty string exactly when the parsed price (0 for a failed parse) is 0 |
| Pricing.TotalWithinPrice | src/pages/FormUI.jsx:138-142 | with a parsed discount between 0 and 100, a shown total lies between 0 and the price |
| Pricing.UnparsedDiscountIsNoDiscount | src/pages/FormUI.jsx:139 | a discount text that does not parse counts as a discount of 0 |
| Pricing.ItemText | src/pages/FormUI.jsx:119-120 | the item text is empty exactly when the item's value is falsy |
| Pricing.ItemPriceValue | src/pages/FormUI.jsx:120-138 | the price read back from an item's integer `harga` is its magnitude (for magnitudes below 10^21, where `String` switches to exponent form) |
| Pricing.ItemDiscountValue | src/pages/FormUI.jsx:119-139 | the discount read back from an item's integer `diskon` is that number, 0 included |
| Pricing.ItemTotal | src/pages/FormUI.jsx:119-148 | for an item with integer price `h` and discount `d`, the total is blank when `h` is 0 and otherwise `abs(h) * (1 - d/100)` (for magnitudes below 10^21, where `String` switches to exponent form) |
| Pricing.TotalOfItemExample | src/pages/FormUI.jsx:119-144 | an item priced 100000 with discount 10 shows the formatted total of 90000 |
| FormPage.ItemDescription | src/pages/FormUI.jsx:121-133 | the item's description, or `''` when it has none or no item is selected |
| FormPage.DescriptionValue | src/pages/FormUI.jsx:172 | the raw `selected.description` that `HandleBarangChange` writes, a missing value as `undefined` |
| FormPage.ItemDiscount | src/pages/FormUI.jsx:119-131 | the discount text is `''` exactly when no item is selected or its `diskon` is falsy |
| FormPage.ItemHarga | src/pages/FormUI.jsx:120-132 | the price text is `''` exactly when no item is selected or its `harga` is falsy |
| FormPage.EmptyTotal | src/pages/FormUI.jsx:146-148 | empty price and discount texts give a blank total |
| FormPage.FormUI.constructor | src/pages/FormUI.jsx:15-24 | initial state: nothing selected or loaded, empty texts, blank total, no field written; the invariant holds |
| FormPage.FormUI.SelectionsNest | src/pages/FormUI.jsx:79-107 | under the cascade invariant and matching service answers, a selected port belongs to the selected country and a selected item to the selected port |
| FormPage.FormUI.Mount | src/pages/FormUI.jsx:68-150 | the first effect pass: with nothing selected, both lists are empty, the texts stay empty, the total is the rule's value for empty texts, and the `pelabuhan` and `barang` fields become `undefined`, `description`, `discount` and `harga` `''`, and `total` the blank total; the invariant holds |
| FormPage.FormUI.LoadNegaras | src/pages/FormUI.jsx:56-60 | the invariant is kept while no country is selected; the country list is stored; the error is shown exactly when no country is coded `ID`; otherwise only the `negara` field changes, to the first such country's id |
| FormPage.FormUI.HandleNegaraChange | src/pages/FormUI.jsx:154-160 | the first loaded country with the id is selected (`undefined` if none); port and item are cleared; the `pelabuhan`, `barang`, `discount`, `harga` and `total` fields are reset |
| FormPage.FormUI.HandlePelabuhanChange | src/pages/FormUI.jsx:162-167 | the first loaded port with the id is selected; only the item is cleared, with the `barang`, `discount`, `harga` and `total` fields; the country is untouched |
| FormPage.FormUI.HandleBarangChange | src/pages/FormUI.jsx:169-173 | the first loaded item with the id is selected; it throws exactly when there is none; otherwise only the `description` field changes, to the raw description |
| FormPage.FormUI.HandleDiscountChange | src/pages/FormUI.jsx:175-177 | the discount text is the typed text |
| FormPage.FormUI.HandleHargaChange | src/pages/FormUI.jsx:179-181 | the price text is the typed text |
| FormPage.FormUI.PelabuhanEffect | src/pages/FormUI.jsx:68-91 | with no country, the port list empties, port and item are cleared and the `pelabuhan` and `barang` fields become `undefined`; otherwise only the fetched list is stored |
| FormPage.FormUI.BarangEffect | src/pages/FormUI.jsx:93-115 | with no port, the item list empties, the item is cleared and the `barang` field becomes `undefined`; otherwise only the fetched list is stored |
| FormPage.FormUI.PopulateEffect | src/pages/FormUI.jsx:117-135 | the discount and price texts and the `discount`, `harga` and `description` fields become the selected item's values, `''` for falsy values and with no item |
| FormPage.FormUI.TotalEffect | src/pages/FormUI.jsx:137-150 | the total is recomputed from the current texts and written to the `total` field |
| FormPage.FormUI.ItemEffects | src/pages/FormUI.jsx:117-150 | the item effect runs only when the item selection changed, and the total effect only when a text changed; the resulting texts, total and fields |
| FormPage.FormUI.ListEffects | src/pages/FormUI.jsx:68-115 | after the country handler: the port list is replaced only when the country changed (by the fetched list, or emptied); the item list is emptied only when a port was selected |
| FormPage.FormUI.SelectNegara | src/pages/FormUI.jsx:154-160 | picking a country keeps the invariant (and coherence, given matching ports); it selects the first match and clears port and item; the port list is replaced only on a change and the item list empties; the fields below the country are reset; the price and discount texts become empty only when an item was selected before |
| FormPage.FormUI.SelectPelabuhan | src/pages/FormUI.jsx:162-167 | picking a port keeps the invariant; it selects the first match and clears the item; the item list changes only when the port changed; the country is untouched |
| FormPage.FormUI.SelectBarang | src/pages/FormUI.jsx:169-173 | picking an item keeps the invariant; a changed selection replaces the texts, typed edits included, with the item's, and the same item keeps them; the error outcome is exactly a missing id |
| FormPage.FormUI.EditDiscount | src/pages/FormUI.jsx:175-177 | typing a discount stores it in the state and the field, and keeps the total current |
| FormPage.FormUI.EditHarga | src/pages/FormUI.jsx:179-181 | typing a price stores it in the state and the field, and keeps the total current |

## Left out

- The network is not modelled: the fetches, `response.json()`, the service address and the filter encoding. A fetched list is a parameter of the method that stores it. A failed fetch is not modelled.
- Loading flags, the `Spin` indicators and the error toast are not modelled, except that `LoadNegaras` reports when the toast is shown.
- Asynchronous scheduling is not modelled: overlapping fetches and their races, and batching of state updates. Effects run as explicit sequential steps after the event that changed their dependency.
- Dependency comparison is modelled as value equality on the records. React uses `Object.is` on object identity, so a refetched but equal record would not rerun an effect in the model.
- `Intl.NumberFormat`: the rupiah text is not computed. `Rupiah(amount)` stands for it, and the rounding to whole rupiah is left out.
- `FormUI.totalRule`: the class holds the total rule as a constant that the constructor sets to `Pricing.TotalOf`. The event methods are proved for any rule, and the rule's properties are lemmas about `TotalOf`.
- ParseFloat: numbers are exact reals. Binary floating-point rounding, the literal `Infinity` and the `-0` value are not modelled.
- IntToString: only integer-valued item numbers are modelled. The exponent form used from 10^21 upwards and non-integer numbers are not.
- `formatRupiah`'s own `isNaN` guard is not modelled: with exact reals the amount is never `NaN`, so the guard never fires in the model. In JavaScript it can, for `Infinity * 0`: a price that `parseFloat` rounds to `Infinity` (about 1.8 × 10^308 or more, so every price of 310 or more significant digits) with a discount of 100.
- The item's `harga` and `diskon` are modelled as null, an integer number or a string. Other JSON values (booleans, non-integer numbers, objects) are not.
- JSX rendering, the antd components, the disabled-state expressions, form validation rules and the search `filterOption` are not modelled.
- The `TextArea` bound to the `description` field is shown only while an item is selected, which is rendering.
- DescriptionValue: a JSON `null` description is written as `undefined`, not `null`; the item effect overwrites the field whenever the selection changed.
- Ghost invariants: `Settled`, `Cascade`, `TotalCurrent` and `Coherent` state what holds between events. `Coherent` relies on the service answering each filtered request with matching records, which the form does not check.

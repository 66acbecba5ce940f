/**
 * The form component's state and its change handlers and effects.
 *
 * Each `useState` variable is a field of `FormUI`. The antd form's field
 * values are a separate record, since `setFieldsValue` and `resetFields`
 * write there and not to the component state. Each effect is a method the
 * caller runs after a change of its dependency; the `Select…` and `Edit…`
 * methods are the user events: a handler followed by the effects whose
 * dependencies it changed, in the order the component declares them, which
 * is the order in which the following renders run them.
 */
module FormPage {
  import opened Wrappers
  import opened Records
  import opened Pricing

  /**
   * A form field's value: `undefined`, a record's id, text, or a total as the
   * total effect renders it (`''` for a blank total, the localised rupiah
   * text of the amount otherwise).
   */
  datatype FieldValue = Undefined | Id(id: int) | Text(text: string) | Shown(total: Total)

  /** The values of the form's named fields. */
  datatype Fields = Fields(
    negara: FieldValue,
    pelabuhan: FieldValue,
    barang: FieldValue,
    description: FieldValue,
    discount: FieldValue,
    harga: FieldValue,
    total: FieldValue)

  /** A form nothing has written to. */
  const Untouched := Fields(Undefined, Undefined, Undefined, Undefined, Undefined, Undefined, Undefined)

  /**
   * The raw `description` that `handleBarangChange` writes. An absent
   * description writes `undefined`; a JSON `null` one writes `null`, which
   * this model simplifies to `undefined` as well (the item effect overwrites
   * the field whenever the selection changed).
   */
  function DescriptionValue(d: Option<string>): FieldValue {
    match d
    case None => Undefined
    case Some(s) => Text(s)
  }

  /** `selectedBarang.description || ''`, and `''` when no item is selected. */
  function ItemDescription(b: Choice<Barang>): (r: string)
    ensures b.Chosen? && b.value.description.Some? ==> r == b.value.description.value
    ensures !b.Chosen? || b.value.description.None? ==> r == ""
  {
    match b
    case Chosen(item) =>
      (match item.description
       case None => ""
       case Some(d) => d)
    case _ => ""
  }

  /** The discount text the item effect derives from the selection. */
  function ItemDiscount(b: Choice<Barang>): (r: string)
    ensures r == "" <==> !b.Chosen? || b.value.diskon.IsFalsy()
  {
    match b
    case Chosen(item) => ItemText(item.diskon)
    case _ => ""
  }

  /** The price text the item effect derives from the selection. */
  function ItemHarga(b: Choice<Barang>): (r: string)
    ensures r == "" <==> !b.Chosen? || b.value.harga.IsFalsy()
  {
    match b
    case Chosen(item) => ItemText(item.harga)
    case _ => ""
  }

  /** With no price text there is no total. */
  lemma EmptyTotal()
    ensures TotalOf("", "") == Blank
  {
    var e := "";
    assert StripPrice(e) == [];
    assert PriceValue(e) == 0.0 by { PriceWithoutComma(e); }
  }

  class FormUI {
    /**
     * The rule the total effect applies to the price and discount texts. It
     * is fixed when the component is created, to `TotalOf`; the handlers and
     * effects below hold for whatever rule it is.
     */
    const totalRule: (string, string) -> Total
    var selectedNegara: Choice<Negara>
    var selectedPelabuhan: Choice<Pelabuhan>
    var selectedBarang: Choice<Barang>
    var discount: string
    var harga: string
    var total: Total
    var negaraOptions: seq<Negara>
    var pelabuhanOptions: seq<Pelabuhan>
    var barangOptions: seq<Barang>
    var fields: Fields

    /**
     * The selection cascade between user events: a level has options and a
     * selection only under a selected parent, and every selection is one of
     * the loaded options.
     */
    ghost predicate Cascade()
      reads this`selectedNegara, this`selectedPelabuhan, this`selectedBarang,
            this`negaraOptions, this`pelabuhanOptions, this`barangOptions
    {
      (selectedNegara.Chosen? ==> selectedNegara.value in negaraOptions)
      && (!selectedNegara.Chosen? ==> pelabuhanOptions == [] && !selectedPelabuhan.Chosen?)
      && (!selectedPelabuhan.Chosen? ==> barangOptions == [] && !selectedBarang.Chosen?)
      && (selectedPelabuhan.Chosen? ==> selectedPelabuhan.value in pelabuhanOptions)
      && (selectedBarang.Chosen? ==> selectedBarang.value in barangOptions)
    }

    /** The total is the one derived from the current price and discount texts. */
    ghost predicate TotalCurrent()
      reads this`total, this`harga, this`discount
    {
      total == totalRule(harga, discount)
    }

    /** What holds between user events. */
    ghost predicate Settled()
      reads this
    {
      Cascade() && TotalCurrent()
    }

    /**
     * The loaded ports belong to the selected country and the loaded items to
     * the selected port. The form does not check this: it holds when the
     * service answers each filtered request with matching records.
     */
    ghost predicate Coherent()
      reads this`selectedNegara, this`selectedPelabuhan, this`pelabuhanOptions, this`barangOptions
    {
      (forall p :: p in pelabuhanOptions ==>
         selectedNegara.Chosen? && p.idNegara == selectedNegara.value.idNegara)
      && (forall b :: b in barangOptions ==>
            selectedPelabuhan.Chosen? && b.idPelabuhan == selectedPelabuhan.value.idPelabuhan)
    }

    /** A selected port is one of the selected country's, a selected item one of the selected port's. */
    lemma SelectionsNest()
      requires Cascade() && Coherent()
      ensures selectedPelabuhan.Chosen? ==>
                selectedNegara.Chosen? && selectedPelabuhan.value.idNegara == selectedNegara.value.idNegara
      ensures selectedBarang.Chosen? ==>
                selectedPelabuhan.Chosen? && selectedBarang.value.idPelabuhan == selectedPelabuhan.value.idPelabuhan
    {
    }

    /** The state on first render: nothing selected or loaded, empty texts, no field written. */
    constructor ()
      ensures totalRule == TotalOf
      ensures selectedNegara == Cleared && selectedPelabuhan == Cleared && selectedBarang == Cleared
      ensures discount == "" && harga == "" && total == Blank
      ensures negaraOptions == [] && pelabuhanOptions == [] && barangOptions == []
      ensures fields == Untouched
      ensures Settled() && Coherent()
    {
      selectedNegara, selectedPelabuhan, selectedBarang := Cleared, Cleared, Cleared;
      discount, harga, total := "", "", Blank;
      negaraOptions, pelabuhanOptions, barangOptions := [], [], [];
      fields := Untouched;
      totalRule := TotalOf;
      EmptyTotal();
      new;
      assert totalRule("", "") == Blank;
    }

    /**
     * The effect pass after the first render, where React runs every effect
     * once. The country-list fetch only starts; `LoadNegaras` is its later
     * completion. With nothing selected, the port and item-list effects take
     * their empty branches, the item effect empties the texts and the total
     * effect blanks the total, and each writes its fields.
     */
    method Mount()
      requires selectedNegara == Cleared && selectedPelabuhan == Cleared && selectedBarang == Cleared
      requires discount == "" && harga == ""
      modifies this`pelabuhanOptions, this`selectedPelabuhan, this`selectedBarang, this`barangOptions,
               this`discount, this`harga, this`total, this`fields
      ensures Settled()
      ensures selectedPelabuhan == Cleared && selectedBarang == Cleared
      ensures pelabuhanOptions == [] && barangOptions == []
      ensures discount == "" && harga == "" && total == totalRule("", "")
      ensures fields == old(fields).(pelabuhan := Undefined, barang := Undefined, description := Text(""),
                                     discount := Text(""), harga := Text(""), total := Shown(total))
    {
      PelabuhanEffect([]);
      BarangEffect([]);
      PopulateEffect();
      TotalEffect();
    }

    /**
     * The mount effect once the country list has arrived: the list is stored
     * and the `negara` field is set to the first country coded `ID`. The
     * selected country is not set, so no port list is requested. Without such
     * a country, reading its id throws; the error message is shown and the
     * field keeps its value. The country Select is disabled while the list is
     * empty, so no country is selected yet and the invariant is kept.
     */
    method LoadNegaras(data: seq<Negara>) returns (errorShown: bool)
      modifies this`negaraOptions, this`fields
      ensures old(Settled()) && !selectedNegara.Chosen? ==> Settled()
      ensures negaraOptions == data
      ensures errorShown <==> Find(data, IsDefaultNegara).NotFound?
      ensures errorShown ==> fields == old(fields)
      ensures !errorShown ==> fields == old(fields).(negara := Id(Find(data, IsDefaultNegara).value.idNegara))
    {
      negaraOptions := data;
      var defaultNegara := Find(data, IsDefaultNegara);
      if defaultNegara.Chosen? {
        fields := fields.(negara := Id(defaultNegara.value.idNegara));
        errorShown := false;
      } else {
        errorShown := true;
      }
    }

    /**
     * `handleNegaraChange`: selects the first loaded country with the given
     * id (`undefined` if there is none), clears the port and item selections
     * and resets the fields below the country.
     */
    method HandleNegaraChange(value: int)
      modifies this`selectedNegara, this`selectedPelabuhan, this`selectedBarang, this`fields
      ensures selectedNegara == Find(negaraOptions, NegaraWithId(value))
      ensures selectedPelabuhan == Cleared && selectedBarang == Cleared
      ensures fields == old(fields).(pelabuhan := Undefined, barang := Undefined, discount := Undefined,
                                     harga := Undefined, total := Undefined)
    {
      selectedNegara := Find(negaraOptions, NegaraWithId(value));
      selectedPelabuhan := Cleared;
      selectedBarang := Cleared;
      fields := fields.(pelabuhan := Undefined, barang := Undefined, discount := Undefined,
                        harga := Undefined, total := Undefined);
    }

    /**
     * `handlePelabuhanChange`: selects the first loaded port with the given
     * id, clears the item selection and resets the fields below the port.
     */
    method HandlePelabuhanChange(value: int)
      modifies this`selectedPelabuhan, this`selectedBarang, this`fields
      ensures selectedPelabuhan == Find(pelabuhanOptions, PelabuhanWithId(value))
      ensures selectedBarang == Cleared
      ensures fields == old(fields).(barang := Undefined, discount := Undefined, harga := Undefined,
                                     total := Undefined)
    {
      selectedPelabuhan := Find(pelabuhanOptions, PelabuhanWithId(value));
      selectedBarang := Cleared;
      fields := fields.(barang := Undefined, discount := Undefined, harga := Undefined, total := Undefined);
    }

    /**
     * `handleBarangChange`: selects the first loaded item with the given id
     * and writes its raw description into the `description` field. With no
     * such item the selection becomes `undefined` and reading its description
     * throws (`crashed`) before the field is written.
     */
    method HandleBarangChange(value: int) returns (crashed: bool)
      modifies this`selectedBarang, this`fields
      ensures selectedBarang == Find(barangOptions, BarangWithId(value))
      ensures crashed <==> selectedBarang.NotFound?
      ensures crashed ==> fields == old(fields)
      ensures !crashed ==> fields == old(fields).(description := DescriptionValue(selectedBarang.value.description))
    {
      selectedBarang := Find(barangOptions, BarangWithId(value));
      crashed := selectedBarang.NotFound?;
      if !crashed {
        fields := fields.(description := DescriptionValue(selectedBarang.value.description));
      }
    }

    /** `handleDiscountChange`: stores the typed discount text. */
    method HandleDiscountChange(value: string)
      modifies this`discount
      ensures discount == value
    {
      discount := value;
    }

    /** `handleHargaChange`: stores the typed price text. */
    method HandleHargaChange(value: string)
      modifies this`harga
      ensures harga == value
    {
      harga := value;
    }

    /**
     * The effect on the selected country. With none selected it empties the
     * port list, clears both lower selections and sets the `pelabuhan` and
     * `barang` fields to `undefined`; otherwise it stores the ports fetched
     * for the country (`fetched`).
     */
    method PelabuhanEffect(fetched: seq<Pelabuhan>)
      modifies this`pelabuhanOptions, this`selectedPelabuhan, this`selectedBarang, this`fields
      ensures !selectedNegara.Chosen? ==>
                pelabuhanOptions == [] && selectedPelabuhan == Cleared && selectedBarang == Cleared
                && fields == old(fields).(pelabuhan := Undefined, barang := Undefined)
      ensures selectedNegara.Chosen? ==>
                pelabuhanOptions == fetched && selectedPelabuhan == old(selectedPelabuhan)
                && selectedBarang == old(selectedBarang) && fields == old(fields)
    {
      if !selectedNegara.Chosen? {
        pelabuhanOptions := [];
        selectedPelabuhan := Cleared;
        selectedBarang := Cleared;
        fields := fields.(pelabuhan := Undefined, barang := Undefined);
      } else {
        pelabuhanOptions := fetched;
      }
    }

    /**
     * The effect on the selected port. With none selected it empties the
     * item list, clears the item selection and sets the `barang` field to
     * `undefined`; otherwise it stores the items fetched for the port.
     */
    method BarangEffect(fetched: seq<Barang>)
      modifies this`barangOptions, this`selectedBarang, this`fields
      ensures !selectedPelabuhan.Chosen? ==>
                barangOptions == [] && selectedBarang == Cleared && fields == old(fields).(barang := Undefined)
      ensures selectedPelabuhan.Chosen? ==>
                barangOptions == fetched && selectedBarang == old(selectedBarang) && fields == old(fields)
    {
      if !selectedPelabuhan.Chosen? {
        barangOptions := [];
        selectedBarang := Cleared;
        fields := fields.(barang := Undefined);
      } else {
        barangOptions := fetched;
      }
    }

    /**
     * The effect on the selected item: the discount and price texts become
     * the item's (empty for a falsy value, and with no item), and so do the
     * `discount`, `harga` and `description` fields.
     */
    method PopulateEffect()
      modifies this`discount, this`harga, this`fields
      ensures discount == ItemDiscount(selectedBarang) && harga == ItemHarga(selectedBarang)
      ensures fields == old(fields).(discount := Text(discount), harga := Text(harga),
                                     description := Text(ItemDescription(selectedBarang)))
    {
      discount := ItemDiscount(selectedBarang);
      harga := ItemHarga(selectedBarang);
      fields := fields.(discount := Text(discount), harga := Text(harga),
                        description := Text(ItemDescription(selectedBarang)));
    }

    /** The effect on the price and discount texts: recomputes the total and writes it into the `total` field. */
    method TotalEffect()
      modifies this`total, this`fields
      ensures TotalCurrent()
      ensures fields == old(fields).(total := Shown(total))
    {
      total := totalRule(harga, discount);
      fields := fields.(total := Shown(total));
    }

    /**
     * The item effect and then the total effect, as the renders after a
     * selection event run them: the item effect runs when the item selection
     * differs from `previous`, its value before the event, and the total
     * effect when the price or discount text changed.
     */
    method ItemEffects(previous: Choice<Barang>)
      modifies this`discount, this`harga, this`total, this`fields
      ensures var changed := selectedBarang != previous;
              discount == (if changed then ItemDiscount(selectedBarang) else old(discount))
              && harga == (if changed then ItemHarga(selectedBarang) else old(harga))
      ensures var populated := if selectedBarang != previous
                               then old(fields).(discount := Text(discount), harga := Text(harga),
                                                 description := Text(ItemDescription(selectedBarang)))
                               else old(fields);
              fields == if discount != old(discount) || harga != old(harga)
                        then populated.(total := Shown(total)) else populated
      ensures if discount != old(discount) || harga != old(harga) then TotalCurrent() else total == old(total)
    {
      var d0, h0 := discount, harga;
      if selectedBarang != previous {
        PopulateEffect();
      }
      if discount != d0 || harga != h0 {
        TotalEffect();
      }
    }

    /**
     * The port effect and then the item-list effect, as the render after
     * `handleNegaraChange` runs them: each runs when its selection differs
     * from its value before the event (`previousNegara`, `previousPelabuhan`).
     * The handler has already cleared both lower selections and their
     * fields, so the effects only replace or empty the lists.
     */
    method ListEffects(previousNegara: Choice<Negara>, previousPelabuhan: Choice<Pelabuhan>,
                       fetchedPorts: seq<Pelabuhan>)
      requires selectedPelabuhan == Cleared && selectedBarang == Cleared
      requires fields.pelabuhan == Undefined && fields.barang == Undefined
      modifies this`pelabuhanOptions, this`selectedPelabuhan, this`selectedBarang, this`barangOptions, this`fields
      ensures selectedPelabuhan == Cleared && selectedBarang == Cleared && fields == old(fields)
      ensures pelabuhanOptions == if selectedNegara == previousNegara then old(pelabuhanOptions)
                                  else if selectedNegara.Chosen? then fetchedPorts else []
      ensures barangOptions == if previousPelabuhan == Cleared then old(barangOptions) else []
    {
      if selectedNegara != previousNegara {
        PelabuhanEffect(fetchedPorts);
      }
      if selectedPelabuhan != previousPelabuhan {
        BarangEffect([]);
      }
    }

    /**
     * The user picks a country: the handler, then the effects it triggers.
     * The port list is replaced when the selection changed. The price and
     * discount texts are emptied only when an item was selected before, as
     * the item effect runs only when its selection changes, and the total
     * follows them.
     */
    method SelectNegara(value: int, fetchedPorts: seq<Pelabuhan>)
      requires Settled()
      modifies this`selectedNegara, this`selectedPelabuhan, this`selectedBarang, this`discount,
               this`harga, this`total, this`pelabuhanOptions, this`barangOptions, this`fields
      ensures Settled()
      ensures old(Coherent()) && (forall p :: p in fetchedPorts ==> p.idNegara == value) ==> Coherent()
      ensures selectedNegara == Find(negaraOptions, NegaraWithId(value))
      ensures selectedPelabuhan == Cleared && selectedBarang == Cleared
      ensures pelabuhanOptions == if selectedNegara == old(selectedNegara) then old(pelabuhanOptions)
                                  else if selectedNegara.Chosen? then fetchedPorts else []
      ensures barangOptions == []
      ensures var cleared := old(selectedBarang) != Cleared;
              discount == (if cleared then "" else old(discount))
              && harga == (if cleared then "" else old(harga))
              && fields == old(fields).(
                   pelabuhan := Undefined, barang := Undefined,
                   discount := if cleared then Text("") else Undefined,
                   harga := if cleared then Text("") else Undefined,
                   description := if cleared then Text("") else old(fields).description,
                   total := if cleared && (old(discount) != "" || old(harga) != "") then Shown(totalRule("", ""))
                            else Undefined)
    {
      var n0, p0, b0 := selectedNegara, selectedPelabuhan, selectedBarang;
      HandleNegaraChange(value);
      ListEffects(n0, p0, fetchedPorts);
      ItemEffects(b0);
    }

    /**
     * The user picks a port: the handler, then the effects it triggers. The
     * country is untouched; the item list is replaced when the selection
     * changed.
     */
    method SelectPelabuhan(value: int, fetchedItems: seq<Barang>)
      requires Settled()
      modifies this`selectedPelabuhan, this`selectedBarang, this`discount, this`harga, this`total,
               this`barangOptions, this`fields
      ensures Settled()
      ensures old(Coherent()) && (forall b :: b in fetchedItems ==> b.idPelabuhan == value) ==> Coherent()
      ensures selectedPelabuhan == Find(pelabuhanOptions, PelabuhanWithId(value))
      ensures selectedBarang == Cleared
      ensures barangOptions == if selectedPelabuhan == old(selectedPelabuhan) then old(barangOptions)
                               else if selectedPelabuhan.Chosen? then fetchedItems else []
      ensures var cleared := old(selectedBarang) != Cleared;
              discount == (if cleared then "" else old(discount))
              && harga == (if cleared then "" else old(harga))
              && fields == old(fields).(
                   barang := Undefined,
                   discount := if cleared then Text("") else Undefined,
                   harga := if cleared then Text("") else Undefined,
                   description := if cleared then Text("") else old(fields).description,
                   total := if cleared && (old(discount) != "" || old(harga) != "") then Shown(totalRule("", ""))
                            else Undefined)
    {
      var p0, b0 := selectedPelabuhan, selectedBarang;
      HandlePelabuhanChange(value);
      ghost var reset := fields;
      if selectedPelabuhan != p0 {
        BarangEffect(fetchedItems);
      }
      assert selectedBarang == Cleared && fields == reset;
      ItemEffects(b0);
    }

    /**
     * The user picks an item: the handler, then the effects it triggers. A
     * changed selection overwrites the discount and price texts, typed edits
     * included, with the item's; picking the selected item again keeps them.
     */
    method SelectBarang(value: int) returns (crashed: bool)
      requires Settled()
      modifies this`selectedBarang, this`discount, this`harga, this`total, this`fields
      ensures Settled()
      ensures old(Coherent()) ==> Coherent()
      ensures selectedBarang == Find(barangOptions, BarangWithId(value))
      ensures crashed <==> selectedBarang.NotFound?
      ensures var changed := selectedBarang != old(selectedBarang);
              discount == (if changed then ItemDiscount(selectedBarang) else old(discount))
              && harga == (if changed then ItemHarga(selectedBarang) else old(harga))
      ensures var written := if crashed then old(fields)
                             else old(fields).(description := DescriptionValue(selectedBarang.value.description));
              var populated := if selectedBarang != old(selectedBarang)
                               then written.(discount := Text(discount), harga := Text(harga),
                                             description := Text(ItemDescription(selectedBarang)))
                               else written;
              fields == if discount != old(discount) || harga != old(harga)
                        then populated.(total := Shown(total)) else populated
    {
      var b0 := selectedBarang;
      crashed := HandleBarangChange(value);
      ItemEffects(b0);
    }

    /**
     * The user types a discount. The form item bound to the input stores the
     * text in the `discount` field, the handler stores it in the state, and
     * the total is recomputed when the text changed.
     */
    method EditDiscount(value: string)
      requires Settled()
      modifies this`discount, this`total, this`fields
      ensures Settled()
      ensures discount == value
      ensures fields == if value != old(discount) then old(fields).(discount := Text(value), total := Shown(total))
                        else old(fields).(discount := Text(value))
    {
      var d0 := discount;
      fields := fields.(discount := Text(value));
      HandleDiscountChange(value);
      if discount != d0 {
        TotalEffect();
      }
    }

    /**
     * The user types a price. The form item bound to the input stores the
     * text in the `harga` field, the handler stores it in the state, and the
     * total is recomputed when the text changed.
     */
    method EditHarga(value: string)
      requires Settled()
      modifies this`harga, this`total, this`fields
      ensures Settled()
      ensures harga == value
      ensures fields == if value != old(harga) then old(fields).(harga := Text(value), total := Shown(total))
                        else old(fields).(harga := Text(value))
    {
      var h0 := harga;
      fields := fields.(harga := Text(value));
      HandleHargaChange(value);
      if harga != h0 {
        TotalEffect();
      }
    }
  }
}

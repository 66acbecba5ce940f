/**
 * The three record kinds the form selects from, the raw JSON scalars an item
 * carries for its price and discount, and `Array.prototype.find`.
 */
module Records {
  import opened Wrappers

  /** A country: `{id_negara, kode_negara, nama_negara}`. */
  datatype Negara = Negara(idNegara: int, kodeNegara: string, namaNegara: string)

  /** A port: `{id_pelabuhan, nama_pelabuhan, id_negara}`. */
  datatype Pelabuhan = Pelabuhan(idPelabuhan: int, namaPelabuhan: string, idNegara: int)

  /**
   * The JSON value of an item's `harga` or `diskon`: absent or null, an
   * integer number, or a string.
   */
  datatype Scalar = Null | Num(n: int) | Str(s: string)
  {
    /** JavaScript truthiness restricted to these values. */
    predicate IsFalsy() {
      Null? || (Num? && n == 0) || (Str? && s == "")
    }
  }

  /**
   * An item: `{id_barang, nama_barang, id_pelabuhan, harga, diskon,
   * description}`; a missing or null description is `None`.
   */
  datatype Barang = Barang(idBarang: int, namaBarang: string, idPelabuhan: int,
                           harga: Scalar, diskon: Scalar, description: Option<string>)

  /**
   * A variable that holds a record or nothing: `null` (`Cleared`), or
   * `undefined` (`NotFound`, what `find` returns without a match), or a
   * record. React tells `null` and `undefined` apart when it compares an
   * effect's dependencies; truthiness tests do not.
   */
  datatype Choice<T> = Cleared | NotFound | Chosen(value: T)

  /** `xs.find(p)`: a left-to-right search for an element satisfying `p`. */
  function Find<T>(xs: seq<T>, p: T -> bool): (r: Choice<T>)
    ensures r != Cleared
    ensures r.Chosen? ==> r.value in xs && p(r.value)
  {
    if xs == [] then NotFound
    else if p(xs[0]) then Chosen(xs[0])
    else Find(xs[1..], p)
  }

  /** Index of the first element satisfying `p`, if any: the reference for `Find`. */
  function FirstIndex<T>(xs: seq<T>, p: T -> bool): (r: Option<nat>)
    ensures r.None? <==> forall i :: 0 <= i < |xs| ==> !p(xs[i])
    ensures r.Some? ==> r.value < |xs| && p(xs[r.value])
    ensures r.Some? ==> forall j :: 0 <= j < r.value ==> !p(xs[j])
  {
    if xs == [] then None
    else if p(xs[0]) then Some(0)
    else match FirstIndex(xs[1..], p)
      case None => None
      case Some(k) => Some(k + 1)
  }

  /**
   * `Find` returns the first element satisfying `p`, and `undefined` exactly
   * when no element does.
   */
  lemma {:induction false} FindIsFirst<T>(xs: seq<T>, p: T -> bool)
    ensures Find(xs, p).NotFound? <==> FirstIndex(xs, p).None?
    ensures Find(xs, p).Chosen? ==> Find(xs, p).value == xs[FirstIndex(xs, p).value]
  {
    if xs != [] && !p(xs[0]) {
      FindIsFirst(xs[1..], p);
      match FirstIndex(xs[1..], p)
      case None =>
      case Some(k) =>
        assert xs[1..][k] == xs[k + 1];
    }
  }

  /** `Find` comes back `undefined` exactly when no element satisfies `p`. */
  lemma FindNone<T>(xs: seq<T>, p: T -> bool)
    ensures Find(xs, p).NotFound? <==> forall i :: 0 <= i < |xs| ==> !p(xs[i])
  {
    FindIsFirst(xs, p);
  }

  /** The matcher `n => n.id_negara === value`. */
  function NegaraWithId(value: int): Negara -> bool {
    (n: Negara) => n.idNegara == value
  }

  /** The matcher `p => p.id_pelabuhan === value`. */
  function PelabuhanWithId(value: int): Pelabuhan -> bool {
    (p: Pelabuhan) => p.idPelabuhan == value
  }

  /** The matcher `b => b.id_barang === value`. */
  function BarangWithId(value: int): Barang -> bool {
    (b: Barang) => b.idBarang == value
  }

  /** The matcher `n => n.kode_negara === 'ID'` of the default country. */
  predicate IsDefaultNegara(n: Negara) {
    n.kodeNegara == "ID"
  }
}

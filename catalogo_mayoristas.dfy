/** The wholesale entry gate: the customer types a coupon code, and a code
    that some active coupon carries exactly grants wholesale access and
    opens the wholesale catalogue at "/main". */
module CatalogoMayoristas {
  import opened Wrappers
  import opened Text

  datatype Cupon = Cupon(codigo: string, estado: string)

  /** Outcome of the coupon request. */
  datatype Lookup = Fetched(cupones: seq<Cupon>) | LookupFailed

  /** A side effect `validarCodigo` performs besides its own state. */
  datatype Effect = Authorize | Navigate(path: string)

  const ActiveEstado: string := "Activo"
  const BlankMessage: string := "Por favor, ingresa un código válido."
  const InvalidMessage: string := "Código no válido o inactivo."
  const ErrorMessage: string := "Error al validar el código. Inténtalo más tarde."
  const WholesaleHome: string := "/main"

  /** The coupon test: exactly the typed code (not trimmed), and active. */
  predicate Grants(c: Cupon, codigo: string) {
    c.codigo == codigo && c.estado == ActiveEstado
  }

  /** `cupones.find(...)`: the first coupon that grants the code. */
  function FindValid(cupones: seq<Cupon>, codigo: string): (r: Option<Cupon>)
    ensures r.None? <==> forall i :: 0 <= i < |cupones| ==> !Grants(cupones[i], codigo)
    ensures r.Some? ==> r.value in cupones && Grants(r.value, codigo)
  {
    if cupones == [] then None
    else if Grants(cupones[0], codigo) then Some(cupones[0])
    else
      var r := FindValid(cupones[1..], codigo);
      assert forall i :: 1 <= i < |cupones| ==> cupones[i] == cupones[1..][i - 1];
      r
  }

  /** The decision `validarCodigo` reaches. */
  datatype Outcome = Blank | Accepted | Rejected | Failed

  function Decide(codigo: string, lookup: Lookup): (o: Outcome)
    ensures o == Blank <==> Trim(codigo) == ""
    ensures o == Failed <==> Trim(codigo) != "" && lookup.LookupFailed?
    ensures o == Accepted <==>
      Trim(codigo) != "" && lookup.Fetched? && exists c :: c in lookup.cupones && Grants(c, codigo)
  {
    if Trim(codigo) == "" then Blank
    else match lookup
      case LookupFailed => Failed
      case Fetched(cupones) => if FindValid(cupones, codigo).Some? then Accepted else Rejected
  }

  /** A code made only of white space is rejected before any lookup,
      whatever the coupons. */
  lemma BlankNeverLooksUp(codigo: string, l1: Lookup, l2: Lookup)
    requires IsBlank(codigo)
    ensures Decide(codigo, l1) == Decide(codigo, l2) == Blank
  {
    TrimEmptyIffBlank(codigo);
  }

  /** Acceptance needs an active coupon with exactly this code: the same
      coupons grant nothing to a different code. */
  lemma AcceptedNeedsExactCode(codigo: string, other: string, cupones: seq<Cupon>)
    requires codigo != other
    requires forall c :: c in cupones ==> c.codigo == codigo
    ensures Decide(other, Fetched(cupones)) != Accepted
  {
  }

  /** The blank test trims the code but the lookup does not: a code typed
      with a leading space matches no coupon stored without one. */
  lemma PaddedCodeRejected(codigo: string, cupones: seq<Cupon>)
    requires codigo != [] && IsSpace(codigo[0])
    requires forall c :: c in cupones ==> c.codigo == [] || !IsSpace(c.codigo[0])
    ensures Decide(codigo, Fetched(cupones)) != Accepted
  {
  }

  /** The gate's state. */
  class Gate {
    var codigo: string
    var mensaje: string
    var loading: bool

    constructor ()
      ensures codigo == "" && mensaje == "" && !loading
    {
      codigo, mensaje, loading := "", "", false;
    }

    /** `manejarCambio`. */
    method Type(value: string)
      modifies this
      ensures codigo == value && mensaje == old(mensaje) && loading == old(loading)
    {
      codigo := value;
    }

    /** `validarCodigo` with the request's outcome as input; returns the
        effects performed, in order. */
    method Validar(lookup: Lookup) returns (effects: seq<Effect>)
      modifies this
      ensures codigo == old(codigo)
      ensures Decide(codigo, lookup) == Blank ==> mensaje == BlankMessage && loading == old(loading) && effects == []
      ensures Decide(codigo, lookup) != Blank ==> !loading
      ensures Decide(codigo, lookup) == Accepted ==> mensaje == "" && effects == [Authorize, Navigate(WholesaleHome)]
      ensures Decide(codigo, lookup) == Rejected ==> mensaje == InvalidMessage && effects == []
      ensures Decide(codigo, lookup) == Failed ==> mensaje == ErrorMessage && effects == []
    {
      effects := [];
      if Trim(codigo) == "" {
        mensaje := BlankMessage;
        return;
      }
      loading := true;
      mensaje := "";
      match lookup {
        case LookupFailed =>
          mensaje := ErrorMessage;
        case Fetched(cupones) =>
          var found := FindValid(cupones, codigo);
          if found.Some? {
            effects := effects + [Authorize];
            effects := effects + [Navigate(WholesaleHome)];
          } else {
            mensaje := InvalidMessage;
          }
      }
      loading := false;
    }
  }
}

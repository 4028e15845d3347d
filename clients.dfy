/**
 * The client and loan records the screens pass around, reduced to the fields their rules
 * read. A field the backend may omit or send as null is an Option.
 */
module Clients {
  import opened Wrappers

  /** `"NATURAL" | "JURIDICA"`: a person (identified by DNI) or a company (by RUC). */
  datatype ClientKind = Natural | Juridica

  /** What the search by document returns, and what the dashboard hands to the loan form. */
  datatype ClientSummary = ClientSummary(
    dniCliente: string,
    nombreCliente: string,
    apellidoCliente: string,
    ruc: Option<string>,
    razonSocial: Option<string>,
    tipo: ClientKind,
    tienePrestamoActivo: bool)

  /** The client record behind the loan form; `idCliente` is None until the client is saved. */
  datatype ClientDetail = ClientDetail(
    idCliente: Option<string>,
    dniCliente: Option<string>,
    ruc: Option<string>,
    tipo: ClientKind,
    esNuevo: bool)

  /** A loan as the backend lists it. */
  datatype Loan = Loan(idPrestamo: int, cliente: ClientDetail, monto: real, estado: string)

  /** `value || ""` on an optional text field. */
  function OrEmpty(value: Option<string>): string {
    value.GetOr("")
  }
}

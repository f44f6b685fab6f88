/** Vocabulary shared by every page of the ticketing client: optional values,
    document ids, documents as a query returns them, route parameters and the
    routes the pages navigate to. */
module Common {

  /** A value that may be absent (`null` / `undefined` in the client). */
  datatype Option<+T> = None | Some(value: T)

  /** Document ids are strings chosen by the document store. */
  type Id = string

  /** A document as a query or a get returns it: its id next to its data. */
  datatype Doc<T> = Doc(id: Id, data: T)

  /** A route parameter is used by the pages through JavaScript truthiness:
      it counts only when it is defined and is not the empty string. */
  predicate Present(param: Option<string>)
  {
    param.Some? && param.value != ""
  }

  const LoginRoute := "/login"
  const DashboardRoute := "/panitia/dashboard"
  const MyTicketsRoute := "/my-tickets"
}

/** The optional values of the dashboard: a TypeScript `T | null` (or an omitted prop). */
module Options {
  datatype Option<T> = None | Some(value: T)
}

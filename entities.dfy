/**
 * The entities of the localization provider that the storage layer and the
 * admin UI exchange: a resource (identified by its key) with its ordered list
 * of per-language translations. Their C# classes live in the provider's core
 * library; here they are plain values.
 */
module Entities {

  /** A value that may be absent: a C# reference that may be null. */
  datatype Option<+T> = None | Some(value: T)

  /**
   * The outcome of an operation that may throw: ArgumentNullException on a
   * null argument, or the SqlException raised when a command runs with a
   * parameter whose value was null and so was not supplied.
   */
  datatype Outcome<+T> =
    | Ok(value: T)
    | ArgumentNullException(paramName: string)
    | ParameterNotSupplied(paramName: string)

  /** A point in time, kept opaque: nothing here computes with dates. */
  datatype DateTime = DateTime(ticks: int)

  /** Row identities (the Id columns); they are only copied and compared. */
  type Id = int

  /** One translation of a resource into one language. */
  datatype LocalizationResourceTranslation = LocalizationResourceTranslation(
    id: Id,
    resourceId: Id,
    value: Option<string>,
    language: string)

  /** A resource with its metadata and its translations, in the order they were loaded. */
  datatype LocalizationResource = LocalizationResource(
    id: Id,
    resourceKey: string,
    author: string,
    fromCode: bool,
    isHidden: bool,
    isModified: bool,
    modificationDate: DateTime,
    notes: Option<string>,
    translations: seq<LocalizationResourceTranslation>)
}

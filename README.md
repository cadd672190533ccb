# Localization resources: SQL row mapper and admin list view model

This project models two pieces of the database-driven localization provider for
ASP.NET Core in Dafny and proves properties about them.

- **`ResourceRepository`** is the SQL Server storage layer
  (`entities.dfy`, `resource_repository.dfy`).
  - `GetAll` reads the rows of a join of `LocalizationResources` with
    `LocalizationResourceTranslations`. Each row carries one translation. The
    method groups the rows into a dictionary keyed by resource key: the first
    row of a key creates the resource from its resource columns, and every row
    of that key appends one translation.
  - `GetByKey` does the same for the rows of one key. It throws on a null key
    and returns null when there are no rows.
  - Three single-row writes insert or update the two tables.

  The data reader is a `seq<Row>` and the tables are two maps keyed by `Id`.
  `GetAll` and `GetByKey` are methods with loops. Each is proved equal to a
  declarative specification: `Grouped(rows)` maps every distinct key to
  `Assemble(key, RowsWithKey(rows, key))`. The lemmas about `Grouped` state what
  the lookup means: one resource per distinct key, metadata from the first row,
  one translation per row in row order, and ownership by `Id`.
- **`AdminUIModels`** models `LocalizationResourceApiModel`, the view model of the
  admin UI's resource list (`admin_ui_models.dfy`). Its constructor does three things:
  - it projects the resources to list items, each with one item per translation;
  - it assigns every list item a display key in place: the key cut to 80
    characters, with `"..."` appended when it was cut;
  - it projects the languages to (Name, EnglishName) pairs.

  A null argument throws `ArgumentNullException` before anything is built. The
  list item is a class because its `DisplayKey` is set after construction.

A key of at most 80 characters is shown unchanged, even when it already ends in
`...`, so the ellipsis alone does not show that a key was cut. `DisplayKey`'s
length does: it is 83 exactly when the key is longer than 80.

## Model

| member | source | states |
|---|---|---|
| `ResourceRepository.RowsWithKey` | src/DbLocalizationProvider.NetCore.Storage.SqlServer/ResourceRepository.cs:35-49 | The rows that a key collects are exactly the rows carrying that key. The group is non-empty exactly when the key occurs in the rows. |
| `ResourceRepository.TranslationsOf` | src/DbLocalizationProvider.NetCore.Storage.SqlServer/ResourceRepository.cs:41-48 | A group yields one translation per row, in row order. Each translation has the row's TranslationId, Translation and Language, and the owner's Id as ResourceId. |
| `ResourceRepository.Grouped` | src/DbLocalizationProvider.NetCore.Storage.SqlServer/ResourceRepository.cs:33-77 | The lookup's keys are exactly the distinct ResourceKeys of the rows: one entry per key, and no key that is absent from the rows. |
| `ResourceRepository.GetAll` | src/DbLocalizationProvider.NetCore.Storage.SqlServer/ResourceRepository.cs:9-79 | The TryGetValue/Add loop over the reader builds exactly `Grouped(rows)`. |
| `ResourceRepository.GroupedAppendKnown` | src/DbLocalizationProvider.NetCore.Storage.SqlServer/ResourceRepository.cs:38-49 | A row whose key is already loaded changes only that resource. It appends the row's translation, owned by the existing resource's Id. |
| `ResourceRepository.GroupedAppendNew` | src/DbLocalizationProvider.NetCore.Storage.SqlServer/ResourceRepository.cs:50-74 | A row with a new key adds exactly one resource, built from that row with that row's single translation. Every other entry is unchanged. |
| `ResourceRepository.FirstOfGroup` | src/DbLocalizationProvider.NetCore.Storage.SqlServer/ResourceRepository.cs:35-38 | The first row of a key's group is the earliest row in the reader with that key. |
| `ResourceRepository.FirstRowWins` | src/DbLocalizationProvider.NetCore.Storage.SqlServer/ResourceRepository.cs:53-62 | A resource's Id, Author, FromCode, IsHidden, IsModified, ModificationDate and Notes are those of the first row with its key. Its first translation is that row's. |
| `ResourceRepository.EveryRowLands` | src/DbLocalizationProvider.NetCore.Storage.SqlServer/ResourceRepository.cs:35-75 | No row is lost. Every row's translation is among the translations of the resource for its key. |
| `ResourceRepository.TranslationsAreRowsWithKey` | src/DbLocalizationProvider.NetCore.Storage.SqlServer/ResourceRepository.cs:64-71 | A translation belongs to the resource for a key if and only if it comes from some row with that key, owned by that resource's Id. |
| `ResourceRepository.GroupedResourceIsConsistent` | src/DbLocalizationProvider.NetCore.Storage.SqlServer/ResourceRepository.cs:53-73 | Every loaded resource carries its own key and has at least one translation. Every translation's ResourceId is the resource's Id. |
| `ResourceRepository.GetByKey` | src/DbLocalizationProvider.NetCore.Storage.SqlServer/ResourceRepository.cs:81-146 | A null key throws. No rows gives null. Otherwise the result has the argument as key, metadata from the first row, and one translation per row in order. |
| `ResourceRepository.GetByKeyAgreesWithGetAll` | src/DbLocalizationProvider.NetCore.Storage.SqlServer/ResourceRepository.cs:89-109 | Suppose the filtered query returns exactly the rows whose key equals the argument, in join order. Then GetByKey's resource is GetAll's resource for that key. It is null exactly when GetAll has no entry for the key. |
| `ResourceRepository.Database.AddTranslationForResource` | src/DbLocalizationProvider.NetCore.Storage.SqlServer/ResourceRepository.cs:148-164 | A null resource, then a null translation, throws and changes nothing. A null Value leaves the `@translation` parameter unsupplied, so the command fails and nothing is inserted. Otherwise exactly one row is inserted under an unused Id, with the translation's Language, ResourceId (not the resource's Id) and Value. |
| `ResourceRepository.Database.UpdateTranslation` | src/DbLocalizationProvider.NetCore.Storage.SqlServer/ResourceRepository.cs:166-181 | Null arguments throw and change nothing. A null Value leaves its parameter unsupplied, so the command fails and nothing changes. Otherwise only Value changes, and only in the translation row whose Id matches. |
| `ResourceRepository.Database.UpdateResource` | src/DbLocalizationProvider.NetCore.Storage.SqlServer/ResourceRepository.cs:183-199 | A null resource throws and changes nothing. Null Notes leave the `@notes` parameter unsupplied, so the command fails and nothing changes. Otherwise only IsModified, ModificationDate and Notes change, and only in the resource row whose Id matches. |
| `AdminUIModels.Take` | src/DbLocalizationProvider.AdminUI.AspNetCore/Models/LocalizationResourceApiModel.cs:49 | `Take(80)` gives a prefix of the key with min(length, 80) characters. |
| `AdminUIModels.DisplayKey` | src/DbLocalizationProvider.AdminUI.AspNetCore/Models/LocalizationResourceApiModel.cs:49-50 | A key of at most 80 characters is shown unchanged. A longer key is shown as its first 80 characters plus `...`. The result has at most 83 characters and starts with the key's first min(length, 80) characters. Its length is 83 exactly when the key is longer than 80. |
| `AdminUIModels.DisplayKeyIdempotent` | src/DbLocalizationProvider.AdminUI.AspNetCore/Models/LocalizationResourceApiModel.cs:49-50 | Applying the truncation to a display key gives the same display key. |
| `AdminUIModels.DisplayKeyCollision` | src/DbLocalizationProvider.AdminUI.AspNetCore/Models/LocalizationResourceApiModel.cs:49-50 | Two keys get the same display key if and only if they are equal, or both are longer than 80 characters and agree on their first 80. |
| `AdminUIModels.TranslationItems` | src/DbLocalizationProvider.AdminUI.AspNetCore/Models/LocalizationResourceApiModel.cs:41-43 | One item per translation, in order. Each item carries the resource key, the translation's value and its language. |
| `AdminUIModels.ItemsFollowRows` | src/DbLocalizationProvider.AdminUI.AspNetCore/Models/LocalizationResourceApiModel.cs:41-43 | For a resource loaded by GetAll, the translation items follow the reader rows of its key one to one, in row order, with each row's Translation and Language. |
| `AdminUIModels.ProjectLanguages` | src/DbLocalizationProvider.AdminUI.AspNetCore/Models/LocalizationResourceApiModel.cs:53 | One language item per culture, in order, carrying the culture's Name and EnglishName. |
| `AdminUIModels.ProjectResources` | src/DbLocalizationProvider.AdminUI.AspNetCore/Models/LocalizationResourceApiModel.cs:38-45 | One new list item per resource, same length and order. Each item has the resource's key, its translation items and its FromCode flag. No display key is set yet. |
| `AdminUIModels.AssignDisplayKeys` | src/DbLocalizationProvider.AdminUI.AspNetCore/Models/LocalizationResourceApiModel.cs:47-51 | After the ForEach, every item's DisplayKey is the display key of its own key. |
| `AdminUIModels.LocalizationResourceApiModel.constructor` | src/DbLocalizationProvider.AdminUI.AspNetCore/Models/LocalizationResourceApiModel.cs:38-53 | With non-null arguments the model holds the projected resources, each with its display key assigned, and the projected languages. AdminMode is false. |
| `AdminUIModels.Create` | src/DbLocalizationProvider.AdminUI.AspNetCore/Models/LocalizationResourceApiModel.cs:30-37 | A null resource list throws first, then a null language list throws. Otherwise a new model is built as the constructor states. |

## Left out

- Database I/O is not modelled: `SqlConnection`, `SqlCommand`, `ExecuteReader`, `ExecuteNonQuery` and the SQL text. The reader is a sequence of already-typed rows. The tables are maps, and only the row contents are modelled.
- `GetStringSafe` is not visible in this code. Its reads (Notes, Translation) are modelled as values that may be absent (`Option<string>`).
- Exceptions that `GetString`, `GetInt32`, `GetBoolean` or `GetDateTime` would throw on a NULL or mistyped column are not modelled. Rows are typed values.
- Ids are unbounded integers. The 32-bit width of `GetInt32` does not matter because Ids are only copied and compared.
- `DateTime` is an opaque value. `CultureInfo` is reduced to its Name and EnglishName, and no culture semantics are modelled.
- ResourceRepository.GetAll returns the lookup as a map. The order in which `lookup.Values` is then enumerated is not modelled, because .NET does not specify Dictionary order.
- Appending to `resource.Translations` in place is modelled as replacing the resource stored under its key in the lookup. Each resource is reachable only through the lookup while the loop runs, so no aliasing is lost.
- The `LocalizationResource` back-reference each translation holds is not modelled. Ownership is stated through `ResourceId`.
- ResourceRepository.GetByKeyAgreesWithGetAll assumes two things about the database. First, `WHERE ResourceKey = @key` selects exactly the rows whose key equals the argument character for character. SQL Server's default case-insensitive collation and its trailing-space comparison break this: `GetByKey("foo")` returns a resource keyed `"foo"` built from rows stored as `"Foo"`, while `Grouped` has no `"foo"` entry. Second, the filtered query returns the key's rows in the same order as the joined query. SQL does not promise this without an ORDER BY.
- ResourceRepository.Database.AddTranslationForResource assumes new translation Ids come from an identity counter above every Id in use. The table definition is not part of this model. Foreign-key and uniqueness constraints (for example, one translation per resource and language) are enforced by the database, not by this code, and are not modelled. Neither are the affected-row counts of the writes.
- AdminUIModels.DisplayKey and AdminUIModels.Take count Dafny characters (Unicode scalar values). The C# code counts `Length` and `Take(80)` in UTF-16 code units. For a key outside the Basic Multilingual Plane the two differ. A key of 41 emoji is 82 code units, so the C# code shows 40 emoji plus `...`, while the model leaves the key unchanged. `Take(80)` can also split a surrogate pair, and no Dafny string can hold the lone surrogate that results.
- AdminUIModels.Create and AdminUIModels.LocalizationResourceApiModel.constructor do not model a null resource in the list, a null `Translations` collection or a null `ResourceKey`. The entity types exclude all three. In C# they throw: NullReferenceException for a null resource, an exception from `Select` for null translations, and an exception from `Take` for a null key, raised after `Resources` is already built.
- ResourceRepository.Database.AddTranslationForResource does not model a null `Language`. The entity types exclude it; like a null Value, it would leave its parameter unsupplied.
- The view model's `Languages` is a lazily evaluated `Select`. It is modelled as the sequence it enumerates.
- `ResourceListItemApiModel`, `ResourceItemApiModel` and `CultureApiModel` are defined in files that are not part of this model. Their fields are named after the constructor arguments the view model passes.
- `AdminMode` is a settable property. Only its initial value (false) is modelled.
- The MVC controllers (`ServiceController.cs`, `AdminUIApiController.cs`) are not modelled. They dispatch to query and command objects that are not part of this model, and they read the HTTP user. This includes the four-argument view-model constructor that `ServiceController.cs` calls.
- Hosting and dependency-injection wiring (`Startup.cs`, `IServiceCollectionExtensions.cs`) and the constant UI strings in `Resources.cs` are not modelled. They have no behaviour to model.

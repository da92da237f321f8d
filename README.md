# Tour backend: pricing rule, user manager and tour/tag endpoints in Dafny

This project models the logic of a tour-booking REST backend:

- **Pricing options** (`pricing.dfy`, module `Pricing`). A pricing option's save hook derives one price field from the other. If a discount percentage is set, the special price becomes `option_price - option_price * (discount / 100)`. Otherwise, if a special price is set, the discount becomes `(option_price - special_price) / option_price * 100`. If neither is set, nothing changes. `PricingOption` is a class whose `Save` method updates these fields in place. `Derive` is the pure rule that specifies it, and the lemmas prove the following about `Derive`:
  - the formulas;
  - precedence when both fields are set;
  - idempotence;
  - both round trips;
  - the bounds;
  - the two documented scenarios: 20% off 100.00 gives 80.00, and a special price of 75.00 gives 25%.
- **User accounts** (`accounts.dfy`, module `Accounts`). `UserManager.CreateUser` rejects a missing or empty e-mail. `CreateSuperuser` creates a plain user, then sets staff and superuser and saves again. The user table is a sequence of rows; the e-mail column is unique.
- **Tour and tag endpoints** (`views.dfy`, module `TourViews`), covering:
  - the tag permission table;
  - which serializer each action gets;
  - superuser gating of tag create and delete, and of tour create;
  - the two listing orders: tours by descending id, tags by descending name.

  The two tables are classes (`TagStore`, `TourStore`) whose methods either change the table or refuse and leave it unchanged. The tag endpoints run the permission class before the handler, as the framework does. Each handler is also modelled on its own, with its own superuser refusal.
- **Ordering** (`ordering.dfy`, module `Ordering`). This is the sort behind the listings: a descending insertion sort under any total preorder, proved to be a sorted permutation, plus the character-by-character order on names. It also proves that sorting keeps distinct ids distinct, which makes the tour order strict.

Decimal arithmetic is modelled exactly, with `real`. Nullable columns are `Option` values. An exception that the original raises becomes an error result.

## Model

| member | source | states |
|---|---|---|
| `Pricing.Derive` | app/core/models.py:94-107 | Fails exactly when no discount is set, a special price is set and the option price is zero. Otherwise it keeps the option price. A given discount is kept. Without a discount, the special price is kept. |
| `Pricing.PricingOption.Save` | app/core/models.py:94-107 | The price fields become what `Derive` gives. On the zero-price fault the error is returned and every field is left as it was. Tour, name, option price and includes are never changed. |
| `Pricing.PricingOption.constructor` | app/core/models.py:75-89 | A pricing option holds the given tour, name, prices and includes. |
| `Pricing.SpecialFromDiscountConsistent` | app/core/models.py:96-99 | The derived special price satisfies `special * 100 == price * (100 - discount)`. |
| `Pricing.DiscountFromSpecialConsistent` | app/core/models.py:102-105 | For a non-zero price, the derived discount satisfies the same equation. |
| `Pricing.ConsistentDetermines` | app/core/models.py:96-105 | For a non-zero price, the equation fixes each field from the other, in both directions. |
| `Pricing.DeriveConsistent` | app/core/models.py:96-105 | When either field was given and save succeeds, both are present and consistent with the option price. |
| `Pricing.DiscountTakesPrecedence` | app/core/models.py:96-102 | When both fields are given, the caller's special price has no effect. The discount is kept, and the special price is recomputed from it. |
| `Pricing.NeitherGivenUnchanged` | app/core/models.py:96-105 | With both fields null, save changes nothing. |
| `Pricing.DeriveIdempotent` | app/core/models.py:96-105 | Under exact arithmetic, saving an already-saved option again changes neither derived field. |
| `Pricing.DiscountRoundTrip` | app/core/models.py:97-105 | Under exact arithmetic, for a non-zero price, the special price derived from discount `d`, fed back alone, yields `d`. |
| `Pricing.SpecialRoundTrip` | app/core/models.py:97-105 | Under exact arithmetic, for a non-zero price, the discount derived from special price `s`, fed back alone, yields `s`. |
| `Pricing.SpecialWithinPrice` | app/core/models.py:97-99 | A discount in [0, 100] on a non-negative price gives a special price in [0, price]. |
| `Pricing.DiscountWithinPercent` | app/core/models.py:103-105 | A special price in [0, price], with a positive price, gives a discount in [0, 100]. |
| `Pricing.ScenarioDiscount` | app/core/models.py:96-99 | 20% off 100.00 is a special price of 80.00. |
| `Pricing.ScenarioSpecial` | app/core/models.py:102-105 | A special price of 75.00 on 100.00 is a 25% discount. |
| `Accounts.RequireEmail` | app/core/models.py:20-21 | An e-mail is refused (MissingEmail) exactly when it is absent or empty. |
| `Accounts.NewUserRow` | app/core/models.py:22-23 | A new user keeps the given e-mail and password. Each extra field that is given (name, active, staff, superuser) is used as given. Without one, the user has an empty name and is active, not staff and not a superuser. |
| `Accounts.User.constructor` | app/core/models.py:38-45 | An unsaved user has no key and holds the given row. |
| `Accounts.UserManager.constructor` | app/core/models.py:15-16 | A new manager has an empty table. |
| `Accounts.UserManager.SaveUser` | app/core/models.py:24 | A save fails and writes nothing exactly when another row holds the same e-mail. Otherwise a new user is appended under the next key, and a saved user overwrites its own row. |
| `Accounts.UserManager.CreateUser` | app/core/models.py:18-26 | The call fails with MissingEmail exactly when the e-mail is absent or empty. It fails with DuplicateEmail exactly when the normalised e-mail is already in the table. It succeeds exactly otherwise. On any error no row is written. On success a fresh user is built from the normalised e-mail, the password and the extra fields, and is appended as the last row. |
| `Accounts.UserManager.CreateSuperuser` | app/core/models.py:28-35 | Same three-way outcome as `CreateUser`: MissingEmail, DuplicateEmail, or success exactly otherwise. On success the one new row is active, staff and superuser. |
| `TourViews.HasPermission` | app/tours/views.py:52-57 | `list` and `retrieve` are always allowed. `create`, `update`, `partial_update` and `destroy` are allowed exactly for a superuser. Any other action, or none, is denied. |
| `TourViews.AnonymousOnlyReads` | app/tours/views.py:53-57 | The anonymous user is permitted `list` and `retrieve` and nothing else. |
| `TourViews.SuperuserPermittedAtLeast` | app/tours/views.py:52-57 | A superuser is permitted every action that anyone is permitted. |
| `TourViews.PermissionDenied` | app/tours/views.py:67 | A request the tag permission class refuses is answered 401 exactly when no credentials were presented, and 403 exactly for an authenticated user. |
| `TourViews.HandlerGuardsUnreachable` | app/tours/views.py:55-56 | Only superusers are admitted to the tag create and destroy handlers. So the handlers' own 403 refusals (views.py:75-77 and 92-94) are never sent. |
| `TourViews.Fields` | app/tours/serializers.py:19-52 | Every serializer renders the id. Both tour serializers render the title and the link. Only the tour detail serializer renders the description, and only the tag serializer renders the name. |
| `TourViews.WritableFields` | app/tours/serializers.py:20-47 | A request can set only fields the serializer renders. It can never set the id, the tags or the pricing options. Through the tag serializer it can set nothing. Through either tour serializer it can set the title and the link. |
| `TourViews.CreateSetsNoTagsOrTagName` | app/tours/serializers.py:29-47 | The tour create action gets the detail serializer. Through it, a request can set exactly the title, duration, link and description, and never the tags. Through the tag serializer, a request can set nothing, not even the name. |
| `TourViews.DetailExtendsSummary` | app/tours/serializers.py:49-52 | The detail fields strictly extend the summary fields. Only `description`, `pricing_options` and `tags` are added. |
| `TourViews.SerializerFor` | app/tours/views.py:30-37 | The summary serializer is chosen exactly for `list`. `retrieve` and every other action get the detail serializer. |
| `TourViews.TagNameOrderIsTotalPreorder` | app/tours/views.py:71 | Ordering tags by name is total and transitive. |
| `TourViews.TagListing` | app/tours/views.py:69-71 | The tag listing is a permutation of the table, ordered by non-increasing name. |
| `TourViews.TourListing` | app/tours/views.py:26-28 | The tour listing is a permutation of the table, ordered by non-increasing id. With distinct ids, the order is strictly descending. |
| `TourViews.SortedByDistinctIdsIsStrict` | app/tours/views.py:28 | Sorting tours with distinct ids by id gives strictly descending ids. |
| `TourViews.TagStore.constructor` | app/tours/views.py:65 | The tag table starts empty. |
| `TourViews.TagStore.Listing` | app/tours/views.py:69-71 | The served listing holds exactly the stored tags, by non-increasing name. |
| `TourViews.TagStore.CreateAsWritten` | app/tours/views.py:67-88 | The tag create endpoint. A request the permission class refuses gets the framework denial (see `PermissionDenied`), and the table is unchanged. Every admitted request gets 201. The table grows by one tag with a fresh id and an empty name. |
| `TourViews.TagStore.HandleCreate` | app/tours/views.py:73-88 | The handler alone. A non-superuser gets 403 with the tag error message, and the table is unchanged. A superuser gets 201, and the table grows by one tag with a fresh id and an empty name. |
| `TourViews.TagStore.Create` | app/tours/views.py:67-88 | The tag create endpoint with the name writable. A refused request gets the framework denial. An admitted request with an invalid name gets 400 naming the field. In both cases the table is unchanged. Otherwise there is 201 and exactly one new tag with the requested name under an unused id. 201 happens exactly for a superuser with a valid name. |
| `TourViews.TagStore.Insert` | app/tours/views.py:79-81 | The table grows by exactly the new tag, and the next id advances. |
| `TourViews.TagStore.Destroy` | app/tours/views.py:67-96 | The tag destroy endpoint. A refused request gets the framework denial and nothing is removed. For an admitted request, an unknown id gets 404 and nothing changes. Otherwise there is 204, exactly the tag with that id is removed, and no remaining tag has that id. |
| `TourViews.TagStore.HandleDestroy` | app/tours/views.py:90-96 | The handler alone. A non-superuser gets 403 with the delete error message and nothing is removed. For a superuser, an unknown id gets 404 and nothing changes. Otherwise there is 204, and exactly the tag with that id is removed. |
| `TourViews.TourStore.constructor` | app/tours/views.py:23 | The tour table starts empty. |
| `TourViews.TourStore.Listing` | app/tours/views.py:26-28 | The served listing holds exactly the stored tours, by strictly descending id. |
| `TourViews.TourStore.PerformCreate` | app/tours/views.py:39-48 | A non-superuser gets the 403 refusal with the tour error message, and nothing is saved. For a superuser, exactly one tour is appended under an unused id. It has the input's fields, no tags and the requesting user as its owner. |
| `TourViews.NewTour` | app/tours/views.py:45 | A saved tour has the given id and owner, the input's title, description, duration and link, and no tags. |
| `TourViews.TourStore.CreateAsWritten` | app/tours/views.py:39-48 | The endpoint always answers 201. For a non-superuser nothing is saved. For a superuser, the earlier tours are kept and exactly the new tour is appended and returned. |
| `TourViews.TourStore.Create` | app/tours/views.py:39-48 | 201 happens exactly for a superuser. Then the earlier tours are kept, and exactly the new tour is appended under an unused id and returned, owned by the requester. A non-superuser gets 403 and the table is unchanged. |
| `TourViews.RefusedTourReportedCreated` | app/tours/views.py:41-43 | A non-superuser's tour request through the endpoint as written is answered 201, and no tour is stored. |
| `TourViews.RefusedTourForbidden` | app/tours/views.py:41-43 | The same request through the corrected endpoint is answered 403, and no tour is stored. |
| `TourViews.RequestedTagNameLost` | app/tours/serializers.py:29 | A superuser's request for the tag "Vegan" through the endpoint as written stores a tag named "". |
| `TourViews.RequestedTagNameKept` | app/tours/views.py:79-81 | The same request through the corrected endpoint stores "Vegan". |
| `Ordering.Insert` | app/tours/views.py:28 | Inserting into a descending list gives a descending list. Its multiset is the old one plus the new element. |
| `Ordering.SortDescending` | app/tours/views.py:28 | The result is a permutation of the input, ordered greatest first under any total preorder. |
| `Ordering.LexLeTotal` | app/tours/views.py:71 | Any two names compare one way or the other. |
| `Ordering.LexLeTransitive` | app/tours/views.py:71 | The name order is transitive. |
| `Ordering.LexLeAntisymmetric` | app/tours/views.py:71 | Names that compare both ways are equal. |
| `Ordering.SortKeepsKeysDistinct` | app/tours/views.py:28 | Sorting keeps pairwise-distinct keys pairwise distinct. |

## Decisions

- **Zero option price in the special-price branch.** The original faults here: Python's `Decimal` raises DivisionByZero for `x/0` with `x != 0`, and InvalidOperation (with the condition DivisionUndefined) for `0/0`. Only the first is a ZeroDivisionError. The model keeps this fault as an error result (`SaveError`) and leaves every field unchanged. It is not turned into a precondition.
- **Both fields supplied.** This keeps the original's precedence: the discount wins, and the caller's special price is overwritten.
- **The anonymous user.** A request without credentials carries the anonymous user, which is truthy and never a superuser. So `request.user and request.user.is_superuser` reduces to "is a superuser" (`IsSuperuser`).
- **Anonymous tour listing.** Anonymous list and retrieve are modelled as permitted, as views.py and test_tour_api.py:64-80 have it.
- **Tag endpoints and the permission class.** The framework checks `has_permission` before the handler runs. The endpoint methods (`CreateAsWritten`, `Create`, `Destroy`) therefore answer a refused request with the framework denial (`PermissionDenied`). The handlers' own "Only superusers can …" refusals are modelled in `HandleCreate` and `HandleDestroy`. At the endpoint they are unreachable (`HandlerGuardsUnreachable`).
- **Tour create and read-only fields.** The create action gets the detail serializer, whose `tags` field is read-only. A created tour therefore has no tags, and `TourInput` carries only the writable fields.

## Findings

| source | as written | input that shows it | evidently intended | confidence | as-written member | corrected member |
|---|---|---|---|---|---|---|
| app/tours/serializers.py:29 | The tag serializer declares `name` read-only, so the create request's name never reaches the row. | A superuser posts a tag named "Vegan". This needs the tag viewset routed: app/tours/urls.py:14-15 registers only the tour viewset. | The requested name is stored (after the usual required, non-blank, at-most-255-characters validation). | medium, not executed | `TourViews.RequestedTagNameLost` | `TourViews.TagStore.Create` |
| app/tours/views.py:41-43 | `perform_create` returns a 403 response, but the framework's create handler ignores what `perform_create` returns and answers 201. | A non-superuser posts a tour. | The client receives 403, and nothing is saved. | medium, not executed | `TourViews.RefusedTourReportedCreated` | `TourViews.TourStore.Create` |

## Left out

- **Rounding and column limits.** The database quantises prices to two decimal places and enforces 8 and 5 total digits; `Decimal` rounds non-terminating quotients to 28 significant digits. The model computes exactly, and rounding happens outside it. So `Pricing.DeriveIdempotent`, `Pricing.DiscountRoundTrip` and `Pricing.SpecialRoundTrip` hold only under exact arithmetic. With two-place storage they can fail. Take option price 999999.99 with special price 1.00: the stored discount is 100.00, and saving the reloaded option again stores special price 0.00.
- **`Accounts.UserManager.CreateUser`: password hashing and e-mail normalisation.** These are library calls whose bodies are not part of this model. The manager's `normalizeEmail` is an uninterpreted function it is constructed with, and the row keeps the raw password (None means an unusable password).
- **`Accounts.NewUserRow`: extra fields.** Only `name`, `is_active`, `is_staff` and `is_superuser` are modelled as extra fields. The `is_superuser` default of false comes from the permissions mixin, which is not part of this model.
- **`TourViews.TagStore.Create`: whitespace trimming.** The corrected name validation does not model the serializer trimming whitespace.
- **Token authentication and HTTP plumbing.** Token authentication, request and response plumbing, routing, and the framework's generic mixins are not modelled. One exception: the mixins' destroy (404 on an unknown id, 204 after a delete) and create (always 201) answers are modelled where the handlers rely on them. Deserialisation of tour input is not modelled. The routes file shown (app/tours/urls.py:14-15) registers only the tour viewset. The tag endpoints, including the input of the tag-name finding, are reachable only once the tag viewset is routed.
- **Name order.** The listing order agrees with the database only under a binary (C) collation. Names are compared by code point. A locale collation orders even plain ASCII names differently: it sorts "apple" before "Banana", while code-point order puts "Banana" first.
- **Tour permission classes.** The tour endpoints declare no permission class, so the project settings' default applies. Those settings are not part of this model. The tour create methods assume the default admits the request to `perform_create`.
- **Tag update and partial update.** These handlers are the framework's own and are not part of this model.
- **Admin, favourites and serializer contents.** Admin-panel registration, favourite tours, and the rendering of serializer output are not modelled. Only the field lists are.
- **Rich text and JSON.** The rich-text description and the JSON `includes` are kept as uninterpreted strings.
- **Cascades.** Cascading deletes between users, tours and pricing options are not modelled.
- **Settings.** The remaining project settings are not part of this model.

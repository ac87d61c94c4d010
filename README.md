# monetochka client state, modelled in Dafny

This project models the parts of the monetochka expense-tracking mobile
client that have behaviour beyond rendering:

- **The view-model store** (`client/src/mobx/store.ts`). It holds the
  signed-in user's categories, the user id and the UI locale. Three actions
  assign them and three getters read them back. It is modelled as the class
  `ViewModel.Store`. Beside it, `ViewModel.Apply` and `ViewModel.Run` give
  the same actions as functions on a `StoreState` value. Each method of the
  class is proved to move the fields exactly as `Apply` says. Lemmas over
  `Run` show that categories are replaced wholesale: the last write wins,
  and the user id and locale are left alone.
- **The expense form** (`client/src/components/Form.tsx`).
  - The amount field's schema is the regular expression
    `^\d{1,15}(\.\d+)?$`, plus "required". `AmountPattern.InAmountLanguage`
    states that language as the regex reads. `AmountPattern.MatchesAmount`
    is a one-pass recogniser, proved to accept exactly that language.
    `AmountPattern.AmountMillis` is the amount's value in thousandths.
  - `ExpenseEntry.ValidateSum` gives the error messages.
  - `ExpenseEntry.FindCategory` is the first-match lookup by id.
  - `ExpenseEntry.ExpenseForm.HandleFormSubmit` is the submit handler. It
    returns early when no category matches. Otherwise it adds the amount to
    the matched category inside the user's own list, then makes the remote
    call.
- **The edit-category modal** (`client/src/components/ModalEditCategory.tsx`).
  The class `CategoryEditing.EditCategoryModal` holds the draft icon and
  colour. They are seeded from the selected category and reseeded when
  another category arrives. An emoji pick replaces the icon draft only.
  Save sends the category with only `icon` and `color` replaced
  (`CategoryEditing.WithDraft`) and flips the modal's visibility.

Money is kept as a natural number of thousandths of a currency unit. The
app keeps totals to three decimals.

The remote `changeCategory` call is not modelled. Each handler takes a
`Reply` parameter: what the call resolves to. It is `Success(user)` or a
`Failure` carrying what was thrown. A handler returns the `ChangeRequest`
it sends.

Three behaviours of the code are easy to miss, and the model keeps them:

- A failed mutation does not always leave local state as it was. The
  expense handler writes the new total into the category object inside the
  user's list *before* the call. So after a failure the user still holds the
  new total (`ExpenseEntry.ExpenseForm.HandleFormSubmit`,
  `ExpenseEntry.RecordSample`).
- Save closes, or rather toggles, the modal in the same handler that starts
  the submit. It does not wait for the outcome
  (`CategoryEditing.EditCategoryModal.Save`).
- Neither handler clears `error` on success.

## Model

| member | source | states |
|---|---|---|
| `ViewModel.Initial` | client/src/mobx/store.ts:9-11 | a new store has no categories, an empty user id, and the device locale |
| `ViewModel.Apply` | client/src/mobx/store.ts:17-28 | each action sets the fields it names to its argument; `changeLang` leaves categories and user id, the other two leave the locale, and `changeCategories` leaves the user id |
| `ViewModel.CategoriesUntouched` | client/src/mobx/store.ts:26-28 | any run of actions that are not `setLoggedInUser`/`changeCategories` leaves the category list unchanged |
| `ViewModel.LastCategoriesWin` | client/src/mobx/store.ts:22-24 | whatever ran before, after `changeCategories(cs)` and any later actions that do not write categories, the list is exactly `cs` (no merging) |
| `ViewModel.OnlyCategoryChanges` | client/src/mobx/store.ts:22-24 | after any non-empty sequence of `changeCategories` calls the list is the last call's argument, and the user id and locale are unchanged |
| `ViewModel.LangOnlyByChangeLang` | client/src/mobx/store.ts:17-28 | a run of actions with no `changeLang` leaves the locale unchanged |
| `ViewModel.Store.constructor` | client/src/mobx/store.ts:8-15 | a fresh store's fields are the initial state for the given device locale |
| `ViewModel.Store.SetLoggedInUser` | client/src/mobx/store.ts:17-20 | user id := the user's id, categories := the user's categories, locale unchanged |
| `ViewModel.Store.ChangeCategories` | client/src/mobx/store.ts:22-24 | categories := the argument exactly; user id and locale unchanged |
| `ViewModel.Store.ChangeLang` | client/src/mobx/store.ts:26-28 | locale := the argument; categories and user id unchanged |
| `ViewModel.Store.AllCategories` | client/src/mobx/store.ts:30-32 | returns the current category list, changing nothing |
| `ViewModel.Store.CurrentUserId` | client/src/mobx/store.ts:34-36 | returns the current user id, changing nothing |
| `ViewModel.Store.CurrentLang` | client/src/mobx/store.ts:38-40 | returns the current locale, changing nothing |
| `ViewModel.SignInThenRead` | client/src/mobx/store.ts:17-32 | signing a user in and reading the categories back gives that user's list, same order, with the locale still the device's |
| `AmountPattern.LeadingDigits` | client/src/components/Form.tsx:25 | the result is the length of the longest all-digit prefix: those characters are digits and the next one, if any, is not |
| `AmountPattern.MatchesAmount` | client/src/components/Form.tsx:25 | the recogniser (one scan of the leading digits, then a check of the rest) accepts a string if and only if it is 1 to 15 ASCII digits, optionally followed by `.` and one or more digits |
| `AmountPattern.AcceptedSamples` | client/src/components/Form.tsx:25 | "0" and "12.5" are accepted |
| `AmountPattern.FifteenDigitsAccepted` | client/src/components/Form.tsx:25 | a 15-digit integer is accepted |
| `AmountPattern.RejectedSamples` | client/src/components/Form.tsx:25 | "", "abc", ".5", "12." and "1.2.3" are rejected |
| `AmountPattern.SixteenDigitsRejected` | client/src/components/Form.tsx:25 | a 16-digit integer is rejected |
| `AmountPattern.DigitsValue` | client/src/components/Form.tsx:38-40 | the decimal value of n digits is below 10^n |
| `AmountPattern.RoundToMillis` | client/src/components/Form.tsx:38-40 | the result is d/p in thousandths rounded half up (2p·m ≤ 2000d + p < 2p·(m+1)) and is at most one unit |
| `AmountPattern.FractionMillis` | client/src/components/Form.tsx:38-40 | a decimal fraction contributes at most one unit (1000 thousandths) |
| `AmountPattern.ShortFractionIsExact` | client/src/components/Form.tsx:38-40 | in exact decimal arithmetic, a fraction of at most three digits is taken exactly, without rounding |
| `AmountPattern.AmountMillis` | client/src/components/Form.tsx:38-40 | the amount in thousandths: an integer amount exactly; an amount with a fraction, its exact decimal value rounded half up to the nearest thousandth (2p·v ≤ 2000·exact + p < 2p·(v+1) for exact = the digits read as an integer over p = 10^fraction length) |
| `AmountPattern.AmountMillisBound` | client/src/components/Form.tsx:38-40 | an amount is at least its integer part and at most 10^n units for n integer digits |
| `AmountPattern.MillisSamples` | client/src/components/Form.tsx:38-40 | "12.5" is 12.500 and "0" is 0 |
| `AmountPattern.HalfThousandthRoundsUp` | client/src/components/Form.tsx:38-40 | "0.0005" rounds to 0.001 |
| `ExpenseEntry.ValidateSum` | client/src/components/Form.tsx:23-27 | accepts exactly the amount language; the empty string gets "required"; any other rejected string gets "enter a valid number" |
| `ExpenseEntry.ValidationSamples` | client/src/components/Form.tsx:23-27 | "12.5" passes, "" gets "required", "abc" and "12." get "enter a valid number" |
| `ExpenseEntry.InitialValuesValid` | client/src/components/Form.tsx:18-21 | the initial amount "0" passes the schema and adds nothing; the initial category id is "" |
| `ExpenseEntry.FindFrom` | client/src/components/Form.tsx:34 | the first index at or after `from` whose id matches, or None exactly when no later index matches |
| `ExpenseEntry.FindCategory` | client/src/components/Form.tsx:34 | the first index in list order whose id matches; None exactly when no category has that id |
| `ExpenseEntry.ExpenseForm.constructor` | client/src/components/Form.tsx:29-31 | the form starts with the given user and an empty error |
| `ExpenseEntry.ExpenseForm.HandleFormSubmit` | client/src/components/Form.tsx:33-50 | no match: no call, user and error unchanged; match: the call carries the user id and the first matching category with only its expenses increased by the amount; success replaces the user; failure keeps the user with that increase in place and sets the error to an Error's message |
| `ExpenseEntry.RecordSample` | client/src/components/Form.tsx:38-49 | recording "12.5" against 7.250 sends 19.750, and after a failed call the user's list still holds 19.750 |
| `CategoryEditing.WithDraft` | client/src/components/ModalEditCategory.tsx:42-46 | the body has the draft icon and colour; id, name and expenses are the category's |
| `CategoryEditing.WithDraftUnchangedIff` | client/src/components/ModalEditCategory.tsx:42-46 | the body equals the category if and only if the drafts are its own icon and colour |
| `CategoryEditing.EditCategoryModal.Body` | client/src/components/ModalEditCategory.tsx:42-46 | the body built from the current drafts keeps id, name and expenses, and equals the category exactly when the drafts are seeded |
| `CategoryEditing.EditCategoryModal.constructor` | client/src/components/ModalEditCategory.tsx:25-29 | drafts start as the category's icon and colour; pickers closed; error empty |
| `CategoryEditing.EditCategoryModal.ReceiveCategory` | client/src/components/ModalEditCategory.tsx:31-34 | a new category resets both drafts to its icon and colour and changes nothing else |
| `CategoryEditing.EditCategoryModal.HandleEmojiPick` | client/src/components/ModalEditCategory.tsx:36-38 | the icon draft becomes the picked emoji; nothing else changes |
| `CategoryEditing.EditCategoryModal.ToggleEmojiPicker` | client/src/components/ModalEditCategory.tsx:83-98 | "Add icon" and the keyboard's close flip whether the keyboard is open; nothing else changes |
| `CategoryEditing.EditCategoryModal.OpenColorPicker` | client/src/components/ModalEditCategory.tsx:86-91 | "Set color" shows the colour picker; nothing else changes |
| `CategoryEditing.EditCategoryModal.SetColorPickerVisible` | client/src/components/ModalEditCategory.tsx:99-103 | the visibility setter handed to the colour picker sets whether it is shown; nothing else changes |
| `CategoryEditing.EditCategoryModal.PickColor` | client/src/components/ModalEditCategory.tsx:99-103 | a colour from the picker becomes the colour draft; nothing else changes |
| `CategoryEditing.EditCategoryModal.HandleFormSubmit` | client/src/components/ModalEditCategory.tsx:40-55 | the call carries the user id and the category with only icon and colour replaced by the drafts; success replaces the user; failure keeps the user and sets the error to an Error's message; drafts kept |
| `CategoryEditing.EditCategoryModal.Save` | client/src/components/ModalEditCategory.tsx:104-110 | submits as above and flips visibility whatever the reply |
| `CategoryEditing.EditCategoryModal.Close` | client/src/components/ModalEditCategory.tsx:114-119 | flips visibility only |
| `CategoryEditing.ReselectDiscardsEdits` | client/src/components/ModalEditCategory.tsx:26-38 | selecting A, editing both drafts, then selecting B leaves B's icon and colour as drafts, so the body sent is B unchanged |

## Left out

- ExpenseEntry.ExpenseForm.HandleFormSubmit: the new total is computed in exact decimal arithmetic (`AmountPattern.AmountMillis`), not in IEEE doubles as `parseFloat`, `+` and `toFixed(3)` compute it (client/src/components/Form.tsx:38-40). The source can differ from the model in two ways. First, near a half-thousandth, where binary rounding of the double decides the tie. Second, for any amount or total above about 8.8·10^12 (2^43), where doubles are more than a thousandth apart, so thousandths are lost whatever the fraction length. For example, with a total of 0, "12345678901234.567" is sent as 12345678901234.566 and "999999999999999.1" as 999999999999999.125.
- AmountPattern.ShortFractionIsExact: holds in the exact model only; in the source a short fraction on a large amount is still subject to double rounding.
- Object identity and aliasing. A user's category list is a sequence value, and the in-place write to `category.expenses` replaces that slot of the list. Other holders of the same category object do not see the write in the model. An example is the category the categories screen has selected.
- `CategoryEditing.EditCategoryModal.ReceiveCategory`: the effect fires when the category *reference* changes. The model treats every call as a new reference. Handing back the same object, which triggers no reset in the source, is simply not called.
- Asynchrony. Each handler takes its reply as a parameter and completes in one step. Interleavings of several pending calls are not modelled. Neither is the fact that `Save` flips visibility before the reply arrives. Only the final state is modelled, and there the two updates touch different fields.
- The remote `changeCategory` and `deleteCategory` helpers. They are external collaborators and appear only as `Reply` values.
- `handleDeleteCategory` in client/src/components/CategoriesScreen.tsx:38-47. It is a delete call followed by `setUser`/`setError`, the same shape as the submit handlers.
- project/src/components/Total.tsx, JSX rendering, style sheets and the category picker's item list. They are presentation only.
- MobX decorators and reactivity, the React context and `useStore`. The device locale from `expo-localization` becomes the `Store` constructor's parameter.
- The emoji keyboard, the colour-picker modal and the category picker are third-party or unseen components. Only the callbacks they are handed are modelled: the emoji keyboard's pick and close, and the colour picker's visibility and colour setters. When those components call them is not modelled.
- `console.log(user)` in the modal's submit handler.
- Form library plumbing. Formik calls the submit handler only with values the schema accepts, which `ExpenseEntry.ExpenseForm.HandleFormSubmit` takes as its precondition. Formik also passes an empty field to the schema as absent, which is why "" gets "required" and not the pattern message. The category field has no schema.

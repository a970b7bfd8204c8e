# Portfolio browser and contact form of a creative-agency site

This project models two pages of the agency's web front end.

**The portfolio page** shows projects from a feed that the store pages only forwards, nine items per request.
- The page keeps a stack of cursors, the *page history*, so that "Previous" can go back.
- Its state is the active category filter, the selected project, the current cursor and the page history.
- It shows:
  - the fetched page, or nine sample projects when that page is empty;
  - that page filtered by category;
  - a detail view of the selected project.

**The contact page** checks a name, an e-mail address and a message against per-field rules.
- It shows one error per failing field and blocks submission while any error remains.
- It clears a field's error as soon as that field is edited.
- It clears the form once a (simulated) send completes.

The model is split into four modules:
- `Wrappers` holds `Option`, which stands for TypeScript's `null` and `undefined`.
- `JsText` holds the pieces of JavaScript's string library the rules depend on:
  - `trim`;
  - the whitespace class `\s`, with the ECMAScript set of whitespace and line-terminator code points;
  - the e-mail regular expression `^[^\s@]+@[^\s@]+\.[^\s@]+$`.

  The regular expression is implemented as a split at the first `@`. It is proved equal to an independent "there exist an `@` and a `.`" reading of the pattern.
- `Contact` holds the validation rules as functions, plus the `ContactForm` class.
  - The class has the form's three state variables as fields.
  - Its methods are the handlers.
- `Portfolio` holds the derived values as functions.
  - The controller is a `ViewState` value with one pure transition per handler.
  - The class `PortfolioView` updates the same four fields in place. Each of its methods is proved to perform exactly the matching transition.

`ContactExamples` proves what validation returns on three concrete forms.

The fetch result is an input to the model:
- either `Loading`;
- or a page with its `isDone` flag and continuation cursor.

## Model

| member | source | states |
|---|---|---|
| JsText.TrimStartSpec | src/pages/Contact.tsx:23-25 | the start of `trim`: what remains is a suffix, everything removed is whitespace, and it starts with a visible character (or is empty) |
| JsText.TrimEndSpec | src/pages/Contact.tsx:23-25 | the end of `trim`: what remains is a prefix, everything removed is whitespace, and it ends with a visible character (or is empty) |
| JsText.TrimSpec | src/pages/Contact.tsx:23-25 | `trim(s)` is a slice of s with only whitespace before and after it, and it neither starts nor ends with whitespace |
| JsText.TrimOfUnique | src/pages/Contact.tsx:23-25 | at most one string has that property, so the property defines `trim` on its own |
| JsText.TrimKeepsVisible | src/pages/Contact.tsx:23-39 | trimming keeps every visible character; the trim is empty exactly when the text is blank, and has length 1 exactly when the text has one visible character |
| JsText.IndexOfAtSpec | src/pages/Contact.tsx:31 | the split point is the first `@`, and none is found only when the text has no `@` |
| JsText.EmailCheckMatchesPattern | src/pages/Contact.tsx:31 | the first-`@` check accepts exactly the strings of the e-mail pattern: a non-empty local part, `@`, a domain part, `.`, and a non-empty last part, none of them holding whitespace or `@` |
| Contact.FormData.With | src/pages/Contact.tsx:136-171 | `{ ...formData, f: v }` sets field f to v and keeps the other two fields |
| Contact.Errors.Keys | src/pages/Contact.tsx:42 | the keys are exactly the fields holding a message; there are none exactly when the error object is empty |
| Contact.Errors.Without | src/pages/Contact.tsx:138 | clearing field f removes f's error and keeps the others |
| Contact.NameRule | src/pages/Contact.tsx:23-27 | the name is "required" exactly when it is blank, and "too short" exactly when it has one visible character; otherwise there is no error |
| Contact.EmailRule | src/pages/Contact.tsx:29-33 | the address is "required" exactly when it is blank, and "invalid" exactly when it is not blank and does not match the pattern; it has no error exactly when it matches. Leading or trailing whitespace always gives an error, because the pattern is tested on the untrimmed text |
| Contact.MessageRule | src/pages/Contact.tsx:35-39 | the message is "required" exactly when it is blank, and "too short" exactly when it is not blank and its trim is shorter than 10; ten visible characters always pass |
| Contact.FieldError | src/pages/Contact.tsx:23-39 | each rule only ever produces its own field's messages |
| Contact.ValidateAcceptsExactly | src/pages/Contact.tsx:20-43 | validation yields no errors exactly when the name has at least two visible characters, the address matches the pattern and the trimmed message is at least 10 long |
| Contact.ErrorDependsOnlyOnField | src/pages/Contact.tsx:20-39 | a field's error depends on that field alone |
| Contact.ValidateIsFieldwise | src/pages/Contact.tsx:21-39 | the error object holds, for each field, that field's rule applied to that field |
| Contact.CollectErrors | src/pages/Contact.tsx:21-39 | the if/else chains of `validateForm` build exactly the error object of the three rules |
| Contact.ContactForm.constructor | src/pages/Contact.tsx:12-18 | the form starts empty, not submitting, with no errors |
| Contact.ContactForm.ValidateForm | src/pages/Contact.tsx:20-43 | stores the rules' error object and returns true exactly when it has no keys; afterwards every shown error is its field's current rule result |
| Contact.ContactForm.HandleSubmit | src/pages/Contact.tsx:45-53 | always shows the current validation errors. An invalid form leaves `isSubmitting` as it was. A valid one starts sending. The form's text is untouched |
| Contact.ContactForm.CompleteSubmit | src/pages/Contact.tsx:55-67 | after the delay, the form is empty, has no errors and is not submitting, whatever was typed meanwhile |
| Contact.ContactForm.Edit | src/pages/Contact.tsx:136-171 | an `onChange` stores the new text in its own field and clears that field's error only; the form invariant holds after it: every error on screen is its field's current rule result for that field's current text |
| ContactExamples.MissingNameOnly | src/pages/Contact.tsx:20-43 | an empty name with `a@b.com` and `1234567890` gives only "Name is required" |
| ContactExamples.BadEmailAndShortMessage | src/pages/Contact.tsx:20-43 | `Al`, `bad-email`, `short` gives an e-mail and a message error and no name error |
| ContactExamples.GoodFormAccepted | src/pages/Contact.tsx:20-43 | `Alice`, `alice@vizo.agency`, `Tell us about your project` gives no errors |
| Portfolio.FilterIdComparisons | src/pages/Portfolio.tsx:38-48 | comparing the filter id with "all", and each category with the filter id, selects exactly the projects the filter shows; every filter has its own button and id |
| Portfolio.LoadingDefaults | src/pages/Portfolio.tsx:22-24 | with no result yet, there are no items, `isDone` is true, the cursor is null, and Next cannot advance |
| Portfolio.CanAdvanceMeansMorePages | src/pages/Portfolio.tsx:60 | Next can advance exactly from a delivered page that is not the last and has a non-empty continuation cursor |
| Portfolio.SampleProjectsFillOnePage | src/pages/Portfolio.tsx:19-36 | there are nine sample projects, one page's worth, with distinct ids |
| Portfolio.ProjectsNeverEmpty | src/pages/Portfolio.tsx:22-36 | the projects are the fetched page when it has items, and the samples otherwise (in particular while loading), so there is always something to show |
| Portfolio.MatchingSpec | src/pages/Portfolio.tsx:48 | the category filter keeps only that category, keeps the order, and keeps every project of that category as often as it occurs |
| Portfolio.FilteredProjectsSpec | src/pages/Portfolio.tsx:46-48 | the gallery is an order-preserving subsequence of the projects holding exactly the shown projects with their multiplicities; under "all" it is the projects unchanged |
| Portfolio.FirstWithIdSpec | src/pages/Portfolio.tsx:50 | the lookup returns the first project with the id, and nothing exactly when no project has it |
| Portfolio.SelectingShownProjectOpensIt | src/pages/Portfolio.tsx:46-50 | clicking any card of the filtered gallery opens a detail view with that id, and that very project when ids are distinct |
| Portfolio.NoSelectionNoDetail | src/pages/Portfolio.tsx:50 | with no selection there is no detail view |
| Portfolio.InitialStateValid | src/pages/Portfolio.tsx:12-16 | the initial state satisfies the history invariant: non-empty, starts with null, later entries are truthy cursors, and the cursor is the top |
| Portfolio.NextPagePreservesValid | src/pages/Portfolio.tsx:59-65 | Next keeps the history invariant |
| Portfolio.PrevPagePreservesValid | src/pages/Portfolio.tsx:67-74 | Previous keeps the history invariant |
| Portfolio.ChooseFilterResets | src/pages/Portfolio.tsx:137-140 | a filter click, from any state, sets the filter, returns to page 1 with history `[null]` and cursor null; repeating it changes nothing |
| Portfolio.DetailKeepsPages | src/pages/Portfolio.tsx:254-289 | opening or closing the detail view keeps the invariant and the history; after closing no project is shown |
| Portfolio.NextPageMoves | src/pages/Portfolio.tsx:59-65 | an enabled Next makes the history the old history plus the continuation cursor, so the page number rises by one, and moves the cursor to it. A Next that cannot advance (disabled, loading, or with an empty continuation cursor) changes nothing. Filter and selection never change |
| Portfolio.FirstPageIsNullCursor | src/pages/Portfolio.tsx:228-238 | Previous is disabled exactly when the cursor is null, and there its handler does nothing |
| Portfolio.PrevUndoesNext | src/pages/Portfolio.tsx:59-74 | Previous right after an enabled Next restores the exact earlier state |
| Portfolio.NextPagesCount | src/pages/Portfolio.tsx:59-65 | after any run of Next clicks, the page number has grown by the number of clicks that advanced, the earlier history is kept, and the invariant holds |
| Portfolio.PortfolioView.constructor | src/pages/Portfolio.tsx:12-16 | starts at filter "all", no selection, cursor null, history `[null]` |
| Portfolio.PortfolioView.HandleNextPage | src/pages/Portfolio.tsx:59-65 | updates cursor and history in place exactly as Next does, keeping the invariant |
| Portfolio.PortfolioView.HandlePrevPage | src/pages/Portfolio.tsx:67-74 | updates cursor and history in place exactly as Previous does, keeping the invariant |
| Portfolio.PortfolioView.HandleFilterClick | src/pages/Portfolio.tsx:137-140 | sets the filter and resets the pages in place, establishing the invariant from any state |
| Portfolio.PortfolioView.HandleOpenDetail | src/pages/Portfolio.tsx:207 | selects the clicked project's id and nothing else |
| Portfolio.PortfolioView.HandleCloseDetail | src/pages/Portfolio.tsx:259-289 | clears the selection and nothing else |
| Portfolio.NextThenPrev | src/pages/Portfolio.tsx:59-74 | on the page object, an enabled Next followed by Previous leaves every field as it was, so the cursor is the earlier page's again |

## Left out

- The data-error display state (src/pages/Portfolio.tsx:14, 76-83, 157-180) is not modelled.
  - The fetch result is modelled only as loading or as a delivered page.
  - Its retry reloads the whole browser page.
- The store query (src/convex/portfolio.ts) is an input:
  - the model does not enforce that a page holds at most nine items;
  - it does not model the order of the feed.
- `addPortfolioItem` and its category check are not part of this model.
- The one-second simulated delay of the contact form is not modelled as time. The model splits `handleSubmit` at its `await` into `HandleSubmit` and `CompleteSubmit`.
- The `catch` branch of `handleSubmit` is left out, since its delay never fails.
- Toasts, console output, navigation, scrolling, `window.open`, animation and markup are left out.
- Contact.Errors.Without: the page writes `{ ...errors, f: undefined }`. That keeps f as a key with no value, while the model removes f's message. Every reader of the stored errors tests only whether a message is present, so the two show the same page.
- Contact.NameError, Contact.MessageError: lengths count Unicode characters, whereas JavaScript's `length` counts UTF-16 code units. So a name of one character outside the Basic Multilingual Plane passes the page's two-character check but fails the model's.
- Portfolio.NextPage: the guard follows the code. Besides `!isDone`, the code requires a truthy continuation cursor (present and non-empty).
- The filter is modelled as one of the five button choices rather than as an arbitrary string, since the buttons are its only writers.

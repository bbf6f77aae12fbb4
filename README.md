# Guest booking form: a Dafny model

This project models the logic of a small Android screen for entering guest
bookings. It has three parts:

- `BookingEntry` (`model.dfy`, module `Model`): an immutable triple of arrival
  date, departure date and name, with structural equality.
- `SharedViewModel` (`view_model.dfy`, module `ViewModel`): the in-memory store.
  It holds one ordered list of bookings, which starts empty. Add appends one
  entry. Delete replaces the list with a copy that drops every equal entry.
  The store is a class whose `seq` field both methods reassign. The
  specification function `Without` describes the delete copy, and lemmas state
  its properties: all occurrences go, order is kept, it is idempotent, and an
  absent entry changes nothing.
- `AddScreen` (`add_screen.dfy`, module `AddUi`, plus the "dd.MM.yyyy" formatter
  in `date_text.dfy`, module `DateText`): the screen's decision logic with the
  rendering stripped away. It covers the Save button's validation chain and its
  form reset, the text of the date field, the OK guard of the date-range dialog,
  and the handler that takes the chosen range. Each decision is a pure function
  over a `Form` record. The class `AddScreen` keeps the remembered state
  variables, and its handler methods are proved equal to those functions.

The wall clock (`now`) is a parameter. So is the conversion of epoch
milliseconds to a local date (`toLocalDate`), which depends on the time zone.
Toast messages are returned as values and are not displayed.

Stored names are meant to be non-blank: the Save button refuses a blank name.
The store itself does not check this; `addBookingEntry` appends whatever it is
given. `AddUi.SaveKeepsNamesNonBlank` proves the invariant for entries that come
in through the Save button.

## Model

| member | source | states |
|---|---|---|
| `Model.StructuralEquality` | app/src/main/java/com/example/aufgabe3/model/BookingEntry.kt:14-18 | two entries are equal exactly when arrival, departure and name are all equal |
| `Model.ConstructorAcceptsAnyFields` | app/src/main/java/com/example/aufgabe3/model/BookingEntry.kt:15-17 | any name (blank included) and any two dates, in either order, make an entry holding exactly those fields |
| `ViewModel.Without` | app/src/main/java/com/example/aufgabe3/viewmodel/SharedViewModel.kt:33 | the delete copy holds exactly the entries of the old list that differ from the argument, each as often as before, and none equal to it |
| `ViewModel.WithoutLength` | app/src/main/java/com/example/aufgabe3/viewmodel/SharedViewModel.kt:33 | a delete shortens the list by exactly the number of occurrences of the argument |
| `ViewModel.WithoutAppend` | app/src/main/java/com/example/aufgabe3/viewmodel/SharedViewModel.kt:33 | deleting from a concatenation is concatenating the deletes, so relative order is kept |
| `ViewModel.WithoutAbsent` | app/src/main/java/com/example/aufgabe3/viewmodel/SharedViewModel.kt:33 | deleting an entry that is not in the list leaves the list unchanged |
| `ViewModel.WithoutIdempotent` | app/src/main/java/com/example/aufgabe3/viewmodel/SharedViewModel.kt:33 | deleting the same entry twice gives the same list as deleting it once |
| `ViewModel.WithoutIsSubsequence` | app/src/main/java/com/example/aufgabe3/viewmodel/SharedViewModel.kt:33 | the list after a delete is a subsequence of the list before it |
| `ViewModel.SubsequenceMultiset` | app/src/main/java/com/example/aufgabe3/viewmodel/SharedViewModel.kt:33 | a subsequence never holds more copies of an entry than its source list |
| `ViewModel.WithoutUnique` | app/src/main/java/com/example/aufgabe3/viewmodel/SharedViewModel.kt:33 | the only subsequence of the old list that keeps every other entry as often as before, with no copy of the argument, is the delete result |
| `ViewModel.AddThenDelete` | app/src/main/java/com/example/aufgabe3/viewmodel/SharedViewModel.kt:23-34 | adding an entry and then deleting it gives the same list as only deleting it |
| `ViewModel.WithoutCommutes` | app/src/main/java/com/example/aufgabe3/viewmodel/SharedViewModel.kt:33 | deletes of two values may be applied in either order |
| `ViewModel.SharedViewModel.constructor` | app/src/main/java/com/example/aufgabe3/viewmodel/SharedViewModel.kt:14 | the store starts with the empty list |
| `ViewModel.SharedViewModel.AddBookingEntry` | app/src/main/java/com/example/aufgabe3/viewmodel/SharedViewModel.kt:23-26 | with no precondition, the new list is the old one plus the new entry at the end: one longer, with the old entries unchanged and in order |
| `ViewModel.SharedViewModel.DeleteBookingEntry` | app/src/main/java/com/example/aufgabe3/viewmodel/SharedViewModel.kt:32-34 | the new list is the delete copy: no entry equals the argument, it is a subsequence of the old list, it is shorter by the number of occurrences, and it is unchanged when the argument was absent |
| `DateText.Padded` | app/src/main/java/com/example/aufgabe3/ui/add/AddScreen.kt:70 | a numeric field of the pattern is all digits and at least its minimum width |
| `DateText.PaddedWidth` | app/src/main/java/com/example/aufgabe3/ui/add/AddScreen.kt:70 | a number below 10^width fills exactly width characters |
| `DateText.PaddedValue` | app/src/main/java/com/example/aufgabe3/ui/add/AddScreen.kt:70 | reading a padded field back gives the number it shows |
| `DateText.YearText` | app/src/main/java/com/example/aufgabe3/ui/add/AddScreen.kt:70 | the "yyyy" field of the year of era: at least four characters, exactly four up to year 9999, and starting with '+' exactly past it |
| `DateText.FormatDate` | app/src/main/java/com/example/aufgabe3/ui/add/AddScreen.kt:70 | a date shown as "dd.MM.yyyy" is at least ten characters long |
| `DateText.FormatDateRoundTrip` | app/src/main/java/com/example/aufgabe3/ui/add/AddScreen.kt:70 | for years 1 to 9999 the text is exactly ten characters and reads back as the same date |
| `DateText.FormatDateInjective` | app/src/main/java/com/example/aufgabe3/ui/add/AddScreen.kt:70 | two dates of years 1 to 9999 with the same text are the same date |
| `AddUi.IsBlank` | app/src/main/java/com/example/aufgabe3/ui/add/AddScreen.kt:134-140 | Kotlin's `isBlank` as the Save chain uses it: the empty name is blank, and a name is blank exactly when every character is whitespace |
| `AddUi.DateFieldText` | app/src/main/java/com/example/aufgabe3/ui/add/AddScreen.kt:103-107 | the date field is empty exactly when a date is missing |
| `AddUi.DateFieldRoundTrip` | app/src/main/java/com/example/aufgabe3/ui/add/AddScreen.kt:103-107 | with both dates set, the field reads back as arrival then departure; with one missing it reads as nothing |
| `AddUi.DecideSave` | app/src/main/java/com/example/aufgabe3/ui/add/AddScreen.kt:134-146 | the Save chain: it adds exactly when the name is non-blank and both dates are set, and the added entry holds the form's values; its four outcomes are the table in `SaveDecisionTable` |
| `AddUi.ToastMessage` | app/src/main/java/com/example/aufgabe3/ui/add/AddScreen.kt:135-141 | every refusal shows a non-empty message, and only a successful save shows none |
| `AddUi.SaveStep` | app/src/main/java/com/example/aufgabe3/ui/add/AddScreen.kt:132-150 | the Save transition: the old list is a prefix of the new one, which is one longer exactly when the chain adds; the form changes exactly then, and the dialog flag never |
| `AddUi.SaveDecisionTable` | app/src/main/java/com/example/aufgabe3/ui/add/AddScreen.kt:134-146 | each of the four answers to "name blank?" and "a date missing?" has its own outcome; only a non-blank name with both dates adds, with the form's values, and only that shows no message |
| `AddUi.SaveKeepsNamesNonBlank` | app/src/main/java/com/example/aufgabe3/ui/add/AddScreen.kt:134-146 | if every stored name is non-blank, it stays so after a Save click or a delete |
| `AddUi.SaveTwice` | app/src/main/java/com/example/aufgabe3/ui/add/AddScreen.kt:144-149 | a second Save click right after the first changes nothing; after a successful save it asks to fill all the fields |
| `AddUi.DecideConfirm` | app/src/main/java/com/example/aufgabe3/ui/add/AddScreen.kt:206-217 | the OK guard: it forwards exactly when both ends are absent or not older than a day, and then forwards the picker's pair unchanged |
| `AddUi.ConfirmAcceptsRecent` | app/src/main/java/com/example/aufgabe3/ui/add/AddScreen.kt:206-218 | OK goes through exactly when neither present end is more than a day before now, and then it forwards the pair unchanged, absent ends included |
| `AddUi.ConfirmRejectionPersists` | app/src/main/java/com/example/aufgabe3/ui/add/AddScreen.kt:206-215 | a range rejected at one time is rejected at every later time |
| `AddUi.SelectRange` | app/src/main/java/com/example/aufgabe3/ui/add/AddScreen.kt:166-177 | the range handler: it closes the dialog and keeps the name; both dates become the converted ends when both ends are present, and otherwise stay as they were |
| `AddUi.ConfirmStep` | app/src/main/java/com/example/aufgabe3/ui/add/AddScreen.kt:205-219 | the OK click as a whole keeps the name, either changes nothing or closes the dialog, and keeps the two dates paired |
| `AddUi.HandlersKeepDatesPaired` | app/src/main/java/com/example/aufgabe3/ui/add/AddScreen.kt:65-177 | the initial state and every handler keep arrival and departure either both set or both absent |
| `AddUi.ConfirmStepEffect` | app/src/main/java/com/example/aufgabe3/ui/add/AddScreen.kt:166-177 | a rejected OK changes nothing; an accepted one closes the dialog and keeps the name; it sets both dates to the converted ends only when both ends are present, and otherwise keeps the old dates |
| `AddUi.PickThenSave` | app/src/main/java/com/example/aufgabe3/ui/add/AddScreen.kt:146-149 | a recent range with both ends, then Save with a non-blank name, stores exactly one entry with the converted dates and that name, and clears the form |
| `AddUi.AddScreen.constructor` | app/src/main/java/com/example/aufgabe3/ui/add/AddScreen.kt:65-69 | the screen starts with an empty name, no dates and the dialog closed |
| `AddUi.AddScreen.OnNameChange` | app/src/main/java/com/example/aufgabe3/ui/add/AddScreen.kt:94 | typing replaces the name and nothing else |
| `AddUi.AddScreen.OnDateFieldClick` | app/src/main/java/com/example/aufgabe3/ui/add/AddScreen.kt:114 | a click on the date field opens the dialog and changes nothing else |
| `AddUi.AddScreen.OnDismiss` | app/src/main/java/com/example/aufgabe3/ui/add/AddScreen.kt:179 | dismissing closes the dialog and changes nothing else |
| `AddUi.AddScreen.OnSaveClick` | app/src/main/java/com/example/aufgabe3/ui/add/AddScreen.kt:132-150 | the new form and the store's list are the Save transition of the old ones, and the shown message is the one for the decided outcome |
| `AddUi.AddScreen.OnDateRangeSelected` | app/src/main/java/com/example/aufgabe3/ui/add/AddScreen.kt:166-177 | both dates are replaced only when both ends are present, and the dialog is closed in every case |
| `AddUi.AddScreen.OnConfirmClick` | app/src/main/java/com/example/aufgabe3/ui/add/AddScreen.kt:205-219 | the new state is the guard followed by the range handler and the dismissal, or the old state when the guard rejects |

## Left out

- The `StateFlow` wrapper, its observers and the view-model lifecycle are not modelled. The store is a plain field, and the new value is what an observer would see next.
- Compose rendering is not modelled: layout, colours, theme, the top bar and its back navigation. The Toast display is left out too; the Save handler returns the message instead.
- The clock (`System.currentTimeMillis()`) is the parameter `now`.
- The conversion of epoch milliseconds to a local date in the system time zone is the parameter `toLocalDate`. It depends on the time-zone library.
- The date-range picker widget's own selection rules are not modelled, for example whether the end may precede the start. Its selected start and end are parameters.
- Epoch milliseconds are unbounded integers, not 64-bit `Long`s. `now - 86400000` cannot overflow for any real clock reading.
- `Model.Date` is a plain (year, month, day) triple. Calendar validity is not modelled, because only equality and the display pattern are used.
- DateText.FormatDateRoundTrip: the round trip is stated for years 1 to 9999 only. `FormatDate` follows the "yyyy" rule for other years: it prints the year of era, with a '+' sign past four digits. Because the era is not printed, the text does not identify the date there. The OK guard refuses dates more than a day before now, so it keeps out years before the previous one. The picker widget's own year range, which is not modelled, keeps out years past 9999. In the model `toLocalDate` is unconstrained, so any year can reach `FormatDate`.
- AddUi.DateFieldRoundTrip: same restriction to years 1 to 9999, for the same reason.
- `AddUi.AddScreen.OnConfirmClick` does not require the dialog to be open. In the app the OK button exists only while it is open.

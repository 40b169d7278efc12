# Veterinary clinic records: a verified model

This project models the core of a veterinary clinic application in Dafny and proves properties of the model. The application has two parts.

The Go backend keeps owners, pets and medical records:
- `AppErrors` models its error taxonomy: sentinel errors, AppError records, `%w` wrapping and `errors.Is`.
- `ErrorResponses` models how a handler turns an error into an HTTP status.
- `MedicalRecordValidation`, `PetValidation` and `OwnerValidation` model the request validators.
- `MedicalRecordService`, `PetService` and `OwnerService` model the services over their repositories. Each repository is a map held by a store class.
- `Pagination` models the paginated medical-record listing.
- `Formats` models the UUID and date formats the backend reads.
- `Records` holds the stored entities.

The React frontend runs the clinic's screens:
- `DashboardKanban` models the reception board: filters, drag and drop, advancing, cancelling and editing cards.
- `ReservationManagement` models the reservation calendar: the overlap check, saving, rescheduling, status changes and deletion.
- `WeekView` models the week view's layout of overlapping appointments into clusters and columns, and its card geometry.
- `PetSelection` and `PetSelectionPage` model pet search and selection.
- `MasterItems` models the master-item catalogue.
- `AccountingDetail` models the accounting screen's arithmetic and edits.
- `HospitalizationForm` models the treatment-plan editor.
- `Hospitalizations` models the stay list, its filters and cage moves.
- `HospitalizationApi` models the store-backed update and care-log calls.
- `HospitalizationTypes` holds the hospitalization entities.
- `DailyRecordLogic` models a day's tasks and timeline.
- `TrimmingRecords` models the trimming list filter.
- `StatusHelpers` models the status badges.

Where the source changes state, the model uses a class whose methods are proved against specification functions. Pure computations are functions, with lemmas about them.

## Model

| member | source | states |
|---|---|---|
| AppErrors.Chain | backend/internal/errors/errors.go:32-34 | the chain errors.Is walks: it starts at the error itself, each next element is what the previous one unwraps to, and it ends at an error that wraps nothing |
| AppErrors.TextStartsWithOwnPart | backend/internal/errors/errors.go:25-30 | an AppError's text starts with its message, followed by ": " when it wraps an error; a wrapped error's text starts with its context and ": " |
| AppErrors.TextEndsWithRoot | backend/internal/errors/errors.go:25-30 | the text of every error ends with the text of the innermost error it wraps, so an error wrapping a sentinel ends with that sentinel's text |
| AppErrors.EndsWithTransitive | backend/internal/errors/errors.go:27 | a text ending with a text that ends with a suffix ends with that suffix; this chains the "%s: %v" steps |
| AppErrors.Is | backend/internal/errors/errors.go:61-63 | holds when the error is the target, and otherwise exactly when the target lies on the chain of what the error unwraps to |
| AppErrors.IsNotFound | backend/internal/errors/errors.go:69-71 | a sentinel is NotFound exactly when it is ErrNotFound, and an error that directly wraps a sentinel is NotFound exactly when that sentinel is ErrNotFound |
| AppErrors.SentinelEndsChain | backend/internal/errors/errors.go:9-16 | a sentinel wraps nothing, so an error is of a sentinel's kind exactly when its chain ends in that sentinel |
| AppErrors.KindUnique | backend/internal/errors/errors.go:61-75 | a chain reaches at most one sentinel, so no error is both NotFound and InvalidInput |
| AppErrors.Wrap | backend/internal/errors/errors.go:37-42 | wrapping nil gives nil; otherwise the text is "context: cause" and the chain is the new error followed by the cause's chain |
| AppErrors.WrapPreservesIs | backend/internal/errors/errors.go:41 | errors.Is holds for a wrapped error exactly when it holds for the wrapper itself or for the cause, so wrapping keeps the kind |
| AppErrors.WrapTextMentionsBoth | backend/internal/errors/errors.go:25-30 | the text of a wrapped error contains both the context and the cause's text |
| AppErrors.WrapNotFound | backend/internal/errors/errors.go:44-50 | code NOT_FOUND, text "<resource> with id <id> not found: resource not found", NotFound and not InvalidInput |
| AppErrors.WrapInvalidInput | backend/internal/errors/errors.go:52-58 | code INVALID_INPUT, text "<message>: invalid input", InvalidInput and not NotFound |
| AppErrors.NotFoundTextMentions | backend/internal/errors/errors.go:47 | the not-found text contains the resource name and the id |
| AppErrors.IsInvalidInput | backend/internal/errors/errors.go:73-75 | a sentinel is InvalidInput exactly when it is ErrInvalidInput, and an error that directly wraps a sentinel is InvalidInput exactly when that sentinel is ErrInvalidInput |
| ErrorResponses.HandleError | backend/internal/handler/helper.go:14-39 | NotFound gives 404 with the error text, else InvalidInput gives 400 with the text, else 500 with the fixed body "internal server error"; NotFound is checked first |
| ErrorResponses.InvalidInputIsBadRequest | backend/internal/handler/helper.go:25-29 | an InvalidInput error that is not NotFound is answered 400 with its own text |
| ErrorResponses.WrapKeepsStatus | backend/internal/handler/helper.go:17-37 | wrapping an error in context never changes the status it is answered with |
| ErrorResponses.ConstructorStatuses | backend/internal/handler/helper.go:18-29 | WrapNotFound errors are answered 404 and WrapInvalidInput errors 400 |
| Formats.UuidString | backend/internal/service/medical_record.go:38 | uid.String() has 36 characters |
| Formats.ParseUuid | backend/internal/service/medical_record.go:33-36 | uuid.Parse accepts only ASCII text of 32, 36, 38 or 45 characters (bare, dashed, braced, urn:uuid:) |
| Formats.UuidRoundTrip | backend/internal/service/medical_record.go:33-38 | printing a UUID and parsing the text gives the UUID back, so the id the service re-prints names the same row |
| Formats.UuidOuterCharactersIgnored | backend/internal/service/medical_record.go:33 | the 38-character form is accepted whatever its two outer characters are |
| Formats.ParseLayout | backend/internal/service/medical_record.go:269-286 | time.Parse with a layout: every accepted text names a day that exists in its month |
| Formats.LayoutsDisjoint | backend/internal/service/medical_record.go:269-286 | a text read by one of RFC 3339, "2006-01-02 15:04:05" and "2006-01-02" is read by neither of the other two |
| Formats.FormatDate | backend/internal/validation/pet.go:50-54 | a valid date printed as YYYY-MM-DD has digits everywhere but the two dashes |
| Formats.DateRoundTrip | backend/internal/validation/pet.go:50-54 | every valid date printed as YYYY-MM-DD parses back to that date at midnight UTC |
| Formats.ParseFirst | backend/internal/service/medical_record.go:269-286 | the result of trying layouts in turn is always a valid calendar date |
| Formats.ParseFirstMeans | backend/internal/service/medical_record.go:269-286 | layouts tried in turn succeed exactly when one of them does, and the first that does decides the result |
| Formats.ParseVisitDate | backend/internal/service/medical_record.go:269-286 | a parsed visit date is a valid calendar date |
| Formats.VisitDateAccepted | backend/internal/service/medical_record.go:269-286 | a visit date is accepted exactly when RFC 3339, date and time, or date reads it |
| Formats.VisitDateOfFormattedDate | backend/internal/service/medical_record.go:280-283 | a YYYY-MM-DD visit date is read as that day at midnight |
| MedicalRecordValidation.ValidCreate | backend/internal/validation/medical_record.go:18-117 | the create request the validator accepts, field by field: non-blank ids and date, a date in one of the layouts, the enums, the byte limits |
| MedicalRecordValidation.ValidCreatePasses | backend/internal/validation/medical_record.go:25-110 | a valid create request fails none of the sixteen checks |
| MedicalRecordValidation.InvalidCreateFails | backend/internal/validation/medical_record.go:25-110 | an invalid create request fails at least one check |
| MedicalRecordValidation.CreateViolationsMeaning | backend/internal/validation/medical_record.go:23-110 | violations are accumulated, not short-circuited: a check's violation is listed exactly when it fails, in check order |
| MedicalRecordValidation.CreateViolationsEmptyIffValid | backend/internal/validation/medical_record.go:112-116 | no violation is listed exactly when the create request is valid |
| MedicalRecordValidation.ValidateCreateMedicalRecord | backend/internal/validation/medical_record.go:18-117 | a nil request gives "request is nil"; otherwise the result is nil when nothing failed, else "validation failed: " and every failed check's message joined by "; " in check order |
| MedicalRecordValidation.ValidUpdatePasses | backend/internal/validation/medical_record.go:127-200 | a valid update request fails no check |
| MedicalRecordValidation.InvalidUpdateFails | backend/internal/validation/medical_record.go:127-200 | an invalid update request fails at least one check |
| MedicalRecordValidation.UpdateViolationsMeaning | backend/internal/validation/medical_record.go:125-200 | on update a violation is listed exactly when its check fails, in check order; absent fields fail nothing |
| MedicalRecordValidation.UpdateViolationsEmptyIffValid | backend/internal/validation/medical_record.go:202-206 | no violation is listed exactly when the update request is valid |
| MedicalRecordValidation.NoRequiredChecksOnUpdate | backend/internal/validation/medical_record.go:120-136 | the update validator has no required-field checks |
| MedicalRecordValidation.ValidateUpdateMedicalRecord | backend/internal/validation/medical_record.go:120-207 | a nil request gives "request is nil"; otherwise nil when nothing failed, else all failed checks' messages joined in check order |
| MedicalRecordValidation.EmptyUpdatePasses | backend/internal/validation/medical_record.go:128-200 | an update with no field present is accepted |
| MedicalRecordValidation.EmptyStatusDiffers | backend/internal/validation/medical_record.go:106-200 | an empty status passes on create but a present empty status fails on update |
| MedicalRecordValidation.Messages | backend/internal/validation/medical_record.go:23-110 | one message per violation, in the same order |
| MedicalRecordValidation.Rejection | backend/internal/validation/medical_record.go:112-116 | nil exactly when there are no messages, else a plain error "validation failed: " + the messages joined by "; " |
| MedicalRecordValidation.RejectionIsServerError | backend/internal/validation/medical_record.go:113 | as written, a rejection carries no InvalidInput kind, so the handler answers it 500 "internal server error" |
| MedicalRecordValidation.EmptyCreateRequestIsServerError | backend/internal/validation/medical_record.go:26-113 | a create request with no pet id is rejected and the client sees a 500 |
| MedicalRecordValidation.InvalidInputRejection | backend/internal/validation/medical_record.go:112-116 | the intended rejection: the same text as an InvalidInput error, which the handler answers 400 with that text |
| MedicalRecordService.RecordNo | backend/internal/service/medical_record.go:289-291 | a record number is "MR" followed by decimal digits |
| MedicalRecordService.RecordNoDistinguishesSeconds | backend/internal/service/medical_record.go:289-291 | two record numbers are equal exactly when they were drawn in the same second |
| MedicalRecordService.ParseVisitDateOrFail | backend/internal/service/medical_record.go:269-286 | succeeds exactly when one of the three layouts reads the text, with a valid date; otherwise InvalidInput "invalid date format" |
| MedicalRecordService.RecordNotFound | backend/internal/repository/medical_record.go:59-60 | the repository's miss is NotFound and its text keeps the template, "medical record with id %s not found with id <id> not found: resource not found" |
| MedicalRecordService.IntendedRecordNotFound | backend/internal/repository/medical_record.go:60 | the intended miss: NotFound with the text "medical record with id <id> not found: resource not found" |
| MedicalRecordService.NotFoundTextKeepsPlaceholder | backend/internal/repository/medical_record.go:60 | the client-visible not-found text contains a literal "%s" |
| MedicalRecordService.OverlayText | backend/internal/service/medical_record.go:197-243 | every text field holds the request's value when present and the stored value otherwise; ids, number and date are untouched |
| MedicalRecordService.OverlayTextIdempotent | backend/internal/service/medical_record.go:197-243 | laying the same request over a record twice gives what laying it once gives |
| MedicalRecordService.OverlayNothing | backend/internal/service/medical_record.go:197-243 | a request with no text field present leaves the record as it was |
| MedicalRecordService.RecordStore.GetMedicalRecordByID | backend/internal/service/medical_record.go:32-48 | a malformed id is InvalidInput before any lookup; a well-formed id gives the stored record, or the repository's NotFound when there is none |
| MedicalRecordService.RecordStore.CreateMedicalRecord | backend/internal/service/medical_record.go:71-146 | validation runs first: a rejected request is the error listing its violations, and the store is left alone; a valid request succeeds exactly when its ids and visit date convert, and otherwise fails with the error of the first conversion that fails (pet, owner, visit date, doctor); on success exactly one new record is stored, with the converted keys, the clock as visit date when none is given, no doctor for an empty doctor id, the request's text, and the defaults 初診 and 作成中 |
| MedicalRecordService.RecordStore.UpdateMedicalRecord | backend/internal/service/medical_record.go:149-250 | success needs a valid request and a record found by the id; a failed fetch is returned as it is; with a valid request and a found record the update succeeds exactly when every given id and date converts, and otherwise fails with the first failing conversion's error (pet, owner, doctor, visit date); on success exactly the present fields are overwritten, an empty doctor id clears the doctor, and only that record changes; on any error the store is left alone |
| MedicalRecordService.RecordStore.DeleteMedicalRecord | backend/internal/service/medical_record.go:253-266 | a malformed id is InvalidInput; a missing record is the fetch's NotFound and nothing is deleted; otherwise exactly that record goes |
| MedicalRecordService.ConvertCreateKeys | backend/internal/service/medical_record.go:77-108 | the conversions succeed exactly when the pet and owner ids parse and a given visit date and doctor id parse; a failure is the first failing conversion's InvalidInput error; success yields the parsed ids, no doctor for an empty doctor id, and the clock as visit date when none is given |
| MedicalRecordService.CreateConversionError | backend/internal/service/medical_record.go:77-108 | there is an error exactly when some conversion of the create request fails, and it is InvalidInput |
| MedicalRecordService.BuildRecord | backend/internal/service/medical_record.go:110-139 | the new record carries the converted keys, the record number, the request's text, 初診 for an empty visit type and 作成中 for an empty status |
| MedicalRecordService.UpdateConversionError | backend/internal/service/medical_record.go:160-195 | there is an error exactly when some given id or visit date of the update request fails to convert (an empty doctor id needs none), and it is InvalidInput |
| MedicalRecordService.AssignKeys | backend/internal/service/medical_record.go:161-195 | each present id or date holds its converted value, "" clearing the doctor; a value that does not convert is InvalidInput |
| MedicalRecordService.EmptyVisitDatePassesValidationButNotParsing | backend/internal/service/medical_record.go:189-193 | a present empty visit date passes update validation yet no layout reads it, so the service rejects the update |
| MedicalRecordService.AssignVisitText | backend/internal/service/medical_record.go:197-219 | the visit type and SOAP fields assigned one at a time equal the overlay of the request on those fields |
| MedicalRecordService.AssignClinicalText | backend/internal/service/medical_record.go:221-243 | the remaining text fields assigned one at a time equal the overlay of the request on those fields |
| PetValidation.CheckAnimalFields | backend/internal/validation/pet.go:28-41 | nil exactly when the breed is at most 100 bytes, the gender is empty or 雄/雌/不明 and the weight lies in [0, 999.99]; any failure is InvalidInput |
| PetValidation.CheckRegistrationFields | backend/internal/validation/pet.go:43-66 | nil exactly when the owner id parses (or is empty and optional), the birth date is empty or YYYY-MM-DD, the microchip id is at most 50 bytes and environment and status are empty or in their sets |
| PetValidation.CheckOwner | backend/internal/validation/pet.go:43-48 | nil exactly when the owner id parses as a UUID, or is empty where the owner is optional; a rejection is an InvalidInput AppError |
| PetValidation.CheckEnvironmentAndStatus | backend/internal/validation/pet.go:60-66 | nil exactly when the environment is empty or one of 室内, 室外, 混合 and the status is empty or one of 生存, 死亡; a rejection is an InvalidInput AppError |
| PetValidation.ValidateCreatePet | backend/internal/validation/pet.go:13-69 | nil exactly when the name is 1-100 bytes, the species 1-50 bytes, the owner id a UUID and the optional fields acceptable; a failure is the InvalidInput of the first failing check |
| PetValidation.ValidateUpdatePet | backend/internal/validation/pet.go:72-125 | nil exactly when every non-empty field is acceptable; nothing is required and an empty owner id is not checked |
| PetValidation.CreateAcceptedIsUpdateAccepted | backend/internal/validation/pet.go:13-125 | whatever create accepts, update accepts |
| PetValidation.EmptyUpdatePasses | backend/internal/validation/pet.go:72-125 | an update with every field empty passes |
| PetValidation.MissingNameReportedFirst | backend/internal/validation/pet.go:14-16 | only the first failure is reported: a missing name wins over any later problem |
| PetValidation.RejectionIsBadRequest | backend/internal/validation/pet.go:13-69 | every pet rejection reaches the client as a 400 |
| OwnerValidation.CheckContact | backend/internal/validation/owner.go:24-40 | nil exactly when a given phone is at most 20 bytes of digits, '+', '-', spaces and parentheses and a given e-mail is at most 255 bytes and matches the pattern |
| OwnerValidation.ValidateCreateOwner | backend/internal/validation/owner.go:16-43 | nil exactly when the name is 1-100 bytes and the contact details are acceptable; every failure is InvalidInput |
| OwnerValidation.ValidateUpdateOwner | backend/internal/validation/owner.go:46-72 | nil exactly when the name is at most 100 bytes and the contact details are acceptable; no field is required |
| OwnerValidation.CreateAcceptedIsUpdateAccepted | backend/internal/validation/owner.go:16-72 | whatever create accepts, update accepts |
| OwnerValidation.UpdateNeedsNoName | backend/internal/validation/owner.go:17-19 | an empty request passes update but create reports "owner name is required" |
| OwnerValidation.PhoneShape | backend/internal/validation/owner.go:12 | an accepted phone number holds no letter; two accepted numbers written one after the other are accepted, and a non-empty front part of an accepted number is accepted |
| OwnerValidation.EmailShape | backend/internal/validation/owner.go:11 | every accepted address has at least six characters, ends in two letters, and holds an '@' after its first character followed later by a dot; an address without a dot is refused |
| OwnerValidation.PhoneExamples | backend/internal/validation/owner.go:12 | example: the phone pattern admits "03-1234-5678" and "+81 (3) 1234" and rejects letters and the empty text |
| OwnerValidation.EmailAccepted | backend/internal/validation/owner.go:11 | example: the e-mail pattern admits "info@clinic.jp" |
| OwnerValidation.EmailWithoutTopLevelDomainRejected | backend/internal/validation/owner.go:11 | example: the e-mail pattern rejects a domain with no dot or a one-letter top-level domain |
| OwnerValidation.EmailHasOneAt | backend/internal/validation/owner.go:11 | an address matching the e-mail pattern holds exactly one '@' |
| PetService.PetNotFound | backend/internal/repository/pet.go:26-27 | the repository's miss is NotFound with the text "pet with id <id> not found: resource not found" |
| PetService.ReplaceWeight | backend/internal/service/pet.go:88-90 | a positive weight replaces the stored one; zero or less keeps it |
| PetService.ApplyPetRequest | backend/internal/service/pet.go:76-97 | the fetched pet with each non-empty field replaced, or InvalidInput exactly when a given birth date does not parse |
| PetService.OverwriteDescription | backend/internal/service/pet.go:76-87 | name, species, breed and gender are replaced when non-empty; nothing else changes |
| PetService.PetStore.GetPetByID | backend/internal/service/pet.go:18-24 | a malformed id is InvalidInput before any lookup; a well-formed id gives the stored pet or the repository's NotFound |
| PetService.PetStore.CreatePet | backend/internal/service/pet.go:26-63 | validation runs first and a rejection is InvalidInput with the store untouched; success holds exactly for acceptable requests and stores one pet with owner, number, name, species, breed and gender copied, a positive weight and a parsed birth date |
| PetService.PetStore.UpdatePet | backend/internal/service/pet.go:65-103 | validation, then the fetch whose error propagates with nothing saved; on success only the non-empty fields (a positive weight) are replaced and only that pet changes |
| PetService.PetStore.DeletePet | backend/internal/service/pet.go:105-111 | a malformed id is InvalidInput; a missing pet is NotFound; otherwise exactly that pet is removed |
| PetService.NameUpdateKeepsSpecies | backend/internal/service/pet.go:76-98 | updating only the name leaves the species and every other field as stored |
| PetService.EmptyUpdateKeepsPet | backend/internal/service/pet.go:76-98 | an all-empty update saves the stored pet unchanged: update cannot clear a field |
| PetService.UpdateIdempotent | backend/internal/service/pet.go:76-98 | applying the same update twice gives what applying it once gives |
| OwnerService.OwnerMissing | backend/internal/repository/owner.go:27-28 | the repository's miss reads "owner not found: record not found" and carries no NotFound kind |
| OwnerService.NotFoundByText | backend/internal/service/owner.go:26-30 | an error whose text contains "not found" becomes ErrNotFound; any other is kept |
| OwnerService.MissingOwnerIsNotFound | backend/internal/service/owner.go:26-29 | a missing owner is reported as ErrNotFound, answered 404 |
| OwnerService.TextDecidesNotKind | backend/internal/service/owner.go:27 | the test is on text alone: any database error mentioning "not found" is reported as a missing owner |
| OwnerService.NotFoundByTextKeepsOrReplaces | backend/internal/service/owner.go:26-30 | the mapped error is the sentinel or the original error, and is NotFound exactly when the original was or its text says "not found" |
| OwnerService.OwnerFrom | backend/internal/service/owner.go:37-44 | a created owner carries every request field verbatim |
| OwnerService.OverwriteOwner | backend/internal/service/owner.go:68-85 | each non-empty request field replaces the stored one; the id and the rest stay |
| OwnerService.EmptyUpdateKeepsOwner | backend/internal/service/owner.go:68-85 | an all-empty update saves the stored owner unchanged |
| OwnerService.UpdateIdempotent | backend/internal/service/owner.go:68-85 | applying the same update twice gives what applying it once gives |
| OwnerService.OwnerStore.FindOwner | backend/internal/repository/owner.go:24-33 | the stored owner when the database answers and the row exists; the miss error, or the database failure wrapped |
| OwnerService.OwnerStore.GetOwnerByID | backend/internal/service/owner.go:20-33 | a malformed id is the bare ErrInvalidInput; a miss is ErrNotFound; a database failure is kept unless its text mentions "not found" |
| OwnerService.OwnerStore.CreateOwner | backend/internal/service/owner.go:36-51 | the request is stored verbatim under the new id, with no validation |
| OwnerService.OwnerStore.UpdateOwner | backend/internal/service/owner.go:54-92 | succeeds exactly when the lookup does; an invalid id or a miss is returned as the sentinel, any other failure wrapped; success overwrites only the non-empty fields of that owner |
| OwnerService.OwnerStore.DeleteOwner | backend/internal/service/owner.go:95-114 | existence is checked first: the lookup's error is returned with nothing deleted; otherwise exactly that owner goes |
| OwnerService.LookupFailureStatus | backend/internal/service/owner.go:20-33 | with the database answering, a failed lookup is answered 400 for a malformed id and 404 otherwise, never 500 |
| Pagination.WrapInt | backend/internal/handler/medical_record.go:253 | 64-bit int arithmetic: the result is in range, equals the exact value when that fits, and differs from it by a multiple of 2^64 |
| Pagination.Atoi | backend/internal/handler/medical_record.go:232 | strconv.Atoi accepts an optional sign and one or more digits, with a value within int64 |
| Pagination.AtoiOfDecimal | backend/internal/handler/medical_record.go:232 | every decimal text of a non-negative int64 reads back as its value |
| Pagination.AtoiRejectsStray | backend/internal/handler/medical_record.go:232-235 | any character other than a digit, save a sign in front, makes the text an error |
| Pagination.AtoiNegativeHasMinus | backend/internal/handler/medical_record.go:232-235 | a negative value comes only from a text starting with a minus sign |
| Pagination.AtoiRejects | backend/internal/handler/medical_record.go:232-235 | example: the empty text, a bare sign and a word are errors |
| Pagination.PageParam | backend/internal/handler/medical_record.go:229-235 | the page is the parsed value when it is at least 1, otherwise 1 |
| Pagination.LimitParam | backend/internal/handler/medical_record.go:230-240 | the limit is the parsed value when it lies in [1, 100], otherwise 10 |
| Pagination.TotalPages | backend/internal/handler/medical_record.go:252 | the least number of pages of `limit` records that hold them all |
| Pagination.Window | backend/internal/handler/medical_record.go:256-266 | the records from an offset on, at most `count`, each the record at its offset |
| Pagination.PageOf | backend/internal/handler/medical_record.go:253-266 | page p is the records at offsets (p-1)*limit up to p*limit, clamped to the total, so at most `limit` of them |
| Pagination.PagesArePrefix | backend/internal/handler/medical_record.go:251-266 | the first n pages together are the first n*limit records |
| Pagination.PagesCoverAll | backend/internal/handler/medical_record.go:251-266 | pages 1 to total_pages together are all the records, once each, in order |
| Pagination.PastLastPageIsEmpty | backend/internal/handler/medical_record.go:256-266 | a page past the last is empty |
| Pagination.PagesBeforeLastAreFull | backend/internal/handler/medical_record.go:251-266 | every page before the last holds exactly `limit` records |
| Pagination.ReadParams | backend/internal/handler/medical_record.go:229-240 | the clamped page and limit are those of PageParam and LimitParam |
| Pagination.SlicePage | backend/internal/handler/medical_record.go:253-266 | the step-by-step clamping and slicing give the page |
| Pagination.Paginate | backend/internal/handler/medical_record.go:225-279 | a fetch error is a 500; otherwise the response holds the clamped page and limit, the total, the page count, that page's records, has_next = page < total_pages and has_prev = page > 1 |
| Pagination.StartAsWritten | backend/internal/handler/medical_record.go:253 | the offset (page-1)*limit in 64-bit arithmetic: exact when it fits, wrapped otherwise |
| Pagination.HugePageIsAccepted | backend/internal/handler/medical_record.go:232-235 | the decimal text of page 922337203685477582 passes the page clamp unchanged |
| Pagination.HugePageWrapsStart | backend/internal/handler/medical_record.go:253-266 | with limit 10 that page's offset wraps to a negative number below every total, so the slice bound is negative |
| Pagination.HugePageIsEmpty | backend/internal/handler/medical_record.go:256-266 | computed without overflow, that page is the empty page |
| MedicalRecordValidation.CreateOutcomesMean | backend/internal/validation/medical_record.go:25-110 | the outcome recorded for each create check is that check's verdict |
| MedicalRecordValidation.UpdateOutcomesMean | backend/internal/validation/medical_record.go:128-200 | the outcome recorded for each update check is that check's verdict |
| MedicalRecordValidation.AppendCreateCheck | backend/internal/validation/medical_record.go:25-110 | one create check appends its message exactly when the request fails it, after the messages of the checks before it |
| MedicalRecordValidation.CheckCreateVisit | backend/internal/validation/medical_record.go:25-53 | the pet, owner, visit date and visit type checks append the messages of the first five checks, in order |
| MedicalRecordValidation.CheckCreateSoap | backend/internal/validation/medical_record.go:55-79 | the chief complaint and SOAP length checks append the messages of the next five checks, in order |
| MedicalRecordValidation.CheckCreateClinical | backend/internal/validation/medical_record.go:80-110 | the remaining length checks and the status check append the messages of the last six checks, in order |
| MedicalRecordValidation.AppendUpdateCheck | backend/internal/validation/medical_record.go:128-200 | one update check appends its message exactly when the request fails it, after the messages of the checks before it |
| MedicalRecordValidation.CheckUpdateVisit | backend/internal/validation/medical_record.go:128-143 | the visit date and visit type checks append their messages, in order |
| MedicalRecordValidation.CheckUpdateSoap | backend/internal/validation/medical_record.go:145-169 | the chief complaint and SOAP length checks append their messages, in order |
| MedicalRecordValidation.CheckUpdateClinical | backend/internal/validation/medical_record.go:170-200 | the remaining length checks and the status check append their messages, in order |
| MedicalRecordService.Overlay | backend/internal/service/medical_record.go:197-243 | a field the update request carries replaces the stored value; an absent one leaves it |
| MedicalRecordService.RecordStore.constructor | backend/internal/service/medical_record.go:16-24 | the service starts over the given stored records |
| PetService.PetStore.constructor | backend/internal/service/service.go:18-24 | the service starts over the given stored pets |
| OwnerService.OwnerStore.constructor | backend/internal/service/service.go:18-24 | the service starts over the given stored owners |
| PetValidation.CheckOptionalFields | backend/internal/validation/pet.go:28-66 | the checks both pet validators share pass exactly when the breed, gender, weight, owner, birth date, microchip, environment and status are acceptable; a failure is InvalidInput |
| Pagination.PageStart | backend/internal/handler/medical_record.go:253 | the offset of a page's first record: past the first page it is at least one limit |
| StatusHelpers.MedicalRecordStatusColor | frontend/src/lib/status-helpers.ts:3-12 | only 作成中 and 確定済 get a badge (作成中 the blue one); any other status gets "" |
| StatusHelpers.HospitalizationStatusColor | frontend/src/lib/status-helpers.ts:14-25 | exactly 入院中, 退院済 and 予約 get a badge |
| StatusHelpers.HospitalizationTypeColor | frontend/src/lib/status-helpers.ts:27-31 | red exactly for 入院, purple for anything else |
| StatusHelpers.DashboardColumnColor | frontend/src/lib/status-helpers.ts:33-48 | the text colour is always text-foreground, and an unknown title looks like 受付予約 |
| StatusHelpers.ColumnDotsDistinct | frontend/src/lib/status-helpers.ts:33-48 | the five workflow columns have five different dots |
| StatusHelpers.ReservationTypeColor | frontend/src/lib/status-helpers.ts:50-73 | the default grey exactly for a text that is none of the listed codes and names |
| StatusHelpers.ReservationTypeName | frontend/src/lib/status-helpers.ts:75-84 | an unknown text is returned unchanged, "" becomes その他, and the result is never empty |
| StatusHelpers.NameKeepsColor | frontend/src/lib/status-helpers.ts:50-84 | a type and its display name always get the same colour, so the English and Japanese spellings agree |
| StatusHelpers.CodesShareColors | frontend/src/lib/status-helpers.ts:52-67 | each of the five English codes has the colour of its Japanese name |
| StatusHelpers.CodeSharesColor | frontend/src/lib/status-helpers.ts:50-84 | a code whose display name has the code's own colour keeps that colour through the name |
| StatusHelpers.OtherHasDefaultColor | frontend/src/lib/status-helpers.ts:71-82 | その他 and the empty type both get the default colour |
| StatusHelpers.NameIdempotent | frontend/src/lib/status-helpers.ts:75-84 | a display name is its own display name |
| StatusHelpers.CodeNamesDistinct | frontend/src/lib/status-helpers.ts:77-81 | the five codes have five different display names |
| StatusHelpers.ExaminationStatusColor | frontend/src/lib/status-helpers.ts:86-97 | exactly 依頼中, 検査中 and 完了 get a badge |
| StatusHelpers.AccountingStatusColor | frontend/src/lib/status-helpers.ts:99-110 | exactly 未収, 回収済 and キャンセル get a badge |
| StatusHelpers.TrimmingStatusColor | frontend/src/lib/status-helpers.ts:112-123 | the grey default exactly for a status other than 完了, 予約 and 進行中 |
| StatusHelpers.PetStatusColor | frontend/src/lib/status-helpers.ts:125-129 | the living badge exactly for 生存 |
| StatusHelpers.PetStatusOnlyAliveDistinguished | frontend/src/lib/status-helpers.ts:125-129 | any two statuses other than 生存 look the same |
| StatusHelpers.MasterStatusColor | frontend/src/lib/status-helpers.ts:131-135 | the active badge exactly for "active" |
| TrimmingRecords.FilteredRecords | frontend/src/features/trimming/hooks/useTrimmingRecords.ts:12-25 | an order-preserving subsequence holding exactly the records that match the keyword (case-insensitive, owner or pet) and lie in the range |
| TrimmingRecords.NoCriteriaKeepsAll | frontend/src/features/trimming/hooks/useTrimmingRecords.ts:14-21 | an empty keyword and open range keep every record |
| TrimmingRecords.BoundsAreInclusive | frontend/src/features/trimming/hooks/useTrimmingRecords.ts:19-21 | a record dated on the from day and the to day is kept |
| TrimmingRecords.ReversedRangeIsEmpty | frontend/src/features/trimming/hooks/useTrimmingRecords.ts:19-21 | a range whose start sorts after its end keeps nothing |
| TrimmingRecords.OpeningABoundKeeps | frontend/src/features/trimming/hooks/useTrimmingRecords.ts:20-21 | an empty bound is unbounded: opening either bound never drops a record |
| PetSelectionPage.Keep | frontend/src/hooks/use-pet-selection-page.ts:31-46 | a pet is kept exactly when every non-empty owner id, owner name, phone, pet name and species field occurs in the pet's field (a phone query needing a phone) |
| PetSelectionPage.FilteredPets | frontend/src/hooks/use-pet-selection-page.ts:30-47 | an order-preserving subsequence holding exactly the kept pets |
| PetSelectionPage.EmptySearchKeepsAll | frontend/src/hooks/use-pet-selection-page.ts:14-23 | the initial all-empty form lists every pet |
| PetSelectionPage.PhoneQueryExcludesNoPhone | frontend/src/hooks/use-pet-selection-page.ts:39-40 | a phone query never lists a pet without a phone |
| PetSelectionPage.KanaAndAddressIgnored | frontend/src/hooks/use-pet-selection-page.ts:31-46 | the kana and address fields have no effect on the result |
| PetSelectionPage.MoreFieldsNarrow | frontend/src/hooks/use-pet-selection-page.ts:43-44 | filling in one more field can only narrow the list |
| PetSelection.ResultCap | frontend/src/hooks/use-pet-selection.ts:28 | the maxResults option when it is given and non-zero, else 100; never 0 |
| PetSelection.SliceEnd | frontend/src/hooks/use-pet-selection.ts:28 | the end of slice(0, n): n capped at the length, a negative n counting back from the end |
| PetSelection.FilteredPets | frontend/src/hooks/use-pet-selection.ts:20-44 | an empty query gives [] unless returnAllOnEmpty, then the first pets; a query gives an order-preserving subsequence of matching pets; a positive cap bounds the length |
| PetSelection.FilterCountsMatches | frontend/src/hooks/use-pet-selection.ts:33-41 | the search keeps exactly as many pets as match the query |
| PetSelection.FilteredPetsFirstMatches | frontend/src/hooks/use-pet-selection.ts:26-43 | with a query, the result is a prefix of the matching pets in catalogue order, as long as the cap allows of the match count; when every match fits under a non-negative cap, every matching pet is returned |
| PetSelection.NegativeCapDropsTail | frontend/src/hooks/use-pet-selection.ts:28 | a negative cap drops that many pets from the end instead of capping |
| PetSelection.Toggle | frontend/src/hooks/use-pet-selection.ts:46-70 | deselecting leaves an order-preserving subsequence holding exactly the other pets; selecting puts the pet last, alone in single mode, after the previous selection in multiple mode, and either alone or after it in same-owner mode |
| PetSelection.SameOwnerModeKeepsOneOwner | frontend/src/hooks/use-pet-selection.ts:56-66 | in same-owner mode the selection never mixes owners: after selecting, every selected pet has the new pet's owner, and deselecting keeps one owner |
| PetSelection.ToggleFlips | frontend/src/hooks/use-pet-selection.ts:48-67 | a toggle flips whether the pet is selected |
| PetSelection.ToggleKeepsIdsDistinct | frontend/src/hooks/use-pet-selection.ts:48-67 | the selection never holds two pets with one id |
| PetSelection.FilterKeepsDistinct | frontend/src/hooks/use-pet-selection.ts:52 | deselecting keeps the ids distinct |
| PetSelection.ToggleTwiceRestores | frontend/src/hooks/use-pet-selection.ts:52-66 | in multiple mode, selecting a new pet and toggling it again restores the selection |
| DashboardKanban.Visible | frontend/src/features/dashboard/hooks/useDashboardKanban.ts:20-41 | the card filter: a selected visit type, then the doctor condition, then the trimming condition |
| DashboardKanban.InitialFiltersShowAll | frontend/src/features/dashboard/hooks/useDashboardKanban.ts:10-12 | with the initial settings every 初診 or 再診 card is shown |
| DashboardKanban.DoctorFilterShowsDesignated | frontend/src/features/dashboard/hooks/useDashboardKanban.ts:29-31 | naming a doctor shows only cards designated to that doctor |
| DashboardKanban.ShownColumn | frontend/src/features/dashboard/hooks/useDashboardKanban.ts:18-42 | a column keeps its title and shows, in order, exactly its visible cards |
| DashboardKanban.FilteredColumns | frontend/src/features/dashboard/hooks/useDashboardKanban.ts:17-43 | every column, in order, with only its visible cards |
| DashboardKanban.ToggledTypes | frontend/src/features/dashboard/hooks/useDashboardKanban.ts:45-49 | toggling flips whether the type is selected and leaves every other type as it was |
| DashboardKanban.ToggleVisitTypeTwice | frontend/src/features/dashboard/hooks/useDashboardKanban.ts:45-49 | toggling an unselected type twice restores the selection |
| DashboardKanban.HoverPosition | frontend/src/features/dashboard/hooks/useDashboardKanban.ts:93-103 | the insertion index: the reference card's real index when the hover index names a shown card found in the column, else the end |
| DashboardKanban.Moved | frontend/src/features/dashboard/hooks/useDashboardKanban.ts:75-109 | a move keeps the column count and titles |
| DashboardKanban.DraggedCardIsInSource | frontend/src/features/dashboard/hooks/useDashboardKanban.ts:72-88 | the card the filtered view shows at the drag index is found in the real source column |
| DashboardKanban.MovePreservesCards | frontend/src/features/dashboard/hooks/useDashboardKanban.ts:86-106 | a move keeps the number of cards, and with unique ids in the source column keeps exactly the same cards |
| DashboardKanban.MoveTouchesOnlyEnds | frontend/src/features/dashboard/hooks/useDashboardKanban.ts:75-109 | columns other than the source and target are untouched |
| DashboardKanban.MoveDefaultsToEnd | frontend/src/features/dashboard/hooks/useDashboardKanban.ts:94 | dropped below the shown cards, the card becomes the target's last card |
| DashboardKanban.MovePlacesAboveReference | frontend/src/features/dashboard/hooks/useDashboardKanban.ts:97-106 | dropped on a shown card of another column, the card lands just above that card |
| DashboardKanban.NextColumn | frontend/src/features/dashboard/hooks/useDashboardKanban.ts:117-140 | a next column exists exactly for the first four workflow columns, and differs from the current one |
| DashboardKanban.NextColumnFollowsWorkflow | frontend/src/features/dashboard/hooks/useDashboardKanban.ts:117-121 | for every title, a next column exists exactly when the title is one of the first four workflow columns, and it is the column right after it |
| DashboardKanban.WorkflowReachesSettled | frontend/src/features/dashboard/hooks/useDashboardKanban.ts:117-124 | from every workflow column, advancing once per remaining column reaches 会計済, which has no next column (advancing there removes the card instead) |
| DashboardKanban.ShowingColumn | frontend/src/features/dashboard/hooks/useDashboardKanban.ts:114 | the column found for the card is one whose filtered view shows it |
| DashboardKanban.AdvanceMovesToBottom | frontend/src/features/dashboard/hooks/useDashboardKanban.ts:143-160 | advancing keeps every card on the board and puts the card at the bottom of the next column |
| DashboardKanban.AdvanceFromSettledRemoves | frontend/src/features/dashboard/hooks/useDashboardKanban.ts:123-138 | advancing from 会計済 takes exactly one card with that id off the board |
| DashboardKanban.HoldingColumn | frontend/src/features/dashboard/hooks/useDashboardKanban.ts:166-172 | the first column, in board order, holding a card with the id |
| DashboardKanban.CancelRemovesOne | frontend/src/features/dashboard/hooks/useDashboardKanban.ts:163-175 | cancelling takes exactly one card with the id off the board, or changes nothing when no card has it |
| DashboardKanban.Overlay | frontend/src/features/dashboard/hooks/useDashboardKanban.ts:184-187 | the merged card takes every field of the update, an optional one only when the update has it |
| DashboardKanban.UpdateKeepsPositions | frontend/src/features/dashboard/hooks/useDashboardKanban.ts:177-192 | an update moves no card: every column keeps its length and the id at each position |
| DashboardKanban.Board.ToggleVisitType | frontend/src/features/dashboard/hooks/useDashboardKanban.ts:45-49 | the selected types become the toggled ones; the columns are unchanged |
| DashboardKanban.Board.MoveCard | frontend/src/features/dashboard/hooks/useDashboardKanban.ts:51-111 | returns true exactly when the move is allowed (never from 受付済 to 診療中, both columns found, a shown card at the index); then the columns are the moved ones, otherwise unchanged |
| DashboardKanban.Board.AdvanceStatus | frontend/src/features/dashboard/hooks/useDashboardKanban.ts:113-161 | the columns become the advanced ones, and a card the filters hide is not advanced |
| DashboardKanban.Board.AdvanceFromColumn | frontend/src/features/dashboard/hooks/useDashboardKanban.ts:117-160 | once the column is known, the columns become those of advancing from it |
| DashboardKanban.Board.CancelAppointment | frontend/src/features/dashboard/hooks/useDashboardKanban.ts:163-175 | the columns become those with the first card of the id removed |
| DashboardKanban.Board.UpdateAppointment | frontend/src/features/dashboard/hooks/useDashboardKanban.ts:177-192 | the columns become those with the first card of the id overlaid in place |
| DashboardKanban.ColumnIndex | frontend/src/features/dashboard/hooks/useDashboardKanban.ts:66-67 | the position of the first column with the title; none exactly when no column has it |
| DashboardKanban.CardIndex | frontend/src/features/dashboard/hooks/useDashboardKanban.ts:87-88 | the position of the first card with the id; none exactly when no card has it |
| DashboardKanban.Relocate | frontend/src/features/dashboard/hooks/useDashboardKanban.ts:86-109 | taking a card out of one column and inserting it into another keeps the column count and titles |
| DashboardKanban.RelocateCards | frontend/src/features/dashboard/hooks/useDashboardKanban.ts:86-106 | the board after a relocation, plus the card taken out, holds the board before plus the card inserted |
| DashboardKanban.Advanced | frontend/src/features/dashboard/hooks/useDashboardKanban.ts:113-161 | advancing keeps the column count and titles |
| DashboardKanban.AdvanceFrom | frontend/src/features/dashboard/hooks/useDashboardKanban.ts:117-160 | advancing from a known column keeps the column count and titles |
| DashboardKanban.AdvancedFromShowing | frontend/src/features/dashboard/hooks/useDashboardKanban.ts:114-115 | advancing a shown card is advancing it from the column that shows it |
| DashboardKanban.ShownCardIsInColumn | frontend/src/features/dashboard/hooks/useDashboardKanban.ts:114-143 | a card shown in a column is found among that column's real cards |
| DashboardKanban.AdvanceToNext | frontend/src/features/dashboard/hooks/useDashboardKanban.ts:143-160 | advancing from a column with a next one keeps every card on the board and puts the card at the bottom of the next column |
| DashboardKanban.SettledLeaves | frontend/src/features/dashboard/hooks/useDashboardKanban.ts:123-138 | advancing from 会計済 takes exactly one card with the id off the board |
| DashboardKanban.Cancelled | frontend/src/features/dashboard/hooks/useDashboardKanban.ts:163-175 | cancelling keeps the column count and titles |
| DashboardKanban.UpdatedColumns | frontend/src/features/dashboard/hooks/useDashboardKanban.ts:177-194 | an update keeps the column count and titles |
| DashboardKanban.Board.constructor | frontend/src/features/dashboard/hooks/useDashboardKanban.ts:7-12 | the board starts with the given columns and the initial filters |
| DashboardKanban.Board.Shown | frontend/src/features/dashboard/hooks/useDashboardKanban.ts:17-43 | the shown board has the board's columns, in order, with their titles |
| ReservationManagement.CheckOverlap | frontend/src/features/reservations/routes/ReservationManagement.tsx:63-77 | true exactly when some appointment clashes: not the excluded id, not cancelled, the same doctor, and the ranges intersect |
| ReservationManagement.Overlap | frontend/src/features/reservations/routes/ReservationManagement.tsx:75 | for two non-empty ranges the test holds exactly when the later start lies before the earlier end, whichever range comes first |
| ReservationManagement.OverlapIffCommonInstant | frontend/src/features/reservations/routes/ReservationManagement.tsx:75 | for non-empty ranges the strict comparison means exactly that the half-open ranges share an instant |
| ReservationManagement.AdjacentRangesDoNotOverlap | frontend/src/features/reservations/routes/ReservationManagement.tsx:75 | a range ending when another starts does not clash with it, either way round |
| ReservationManagement.CanceledSpellingStillBlocks | frontend/src/features/reservations/routes/ReservationManagement.tsx:71 | only the spelling "cancelled" frees a slot; an appointment marked "canceled" still blocks it |
| ReservationManagement.ExclusionNeedsAnId | frontend/src/features/reservations/routes/ReservationManagement.tsx:70 | an appointment is excluded from its own check exactly when its id is non-empty |
| ReservationManagement.TargetDoctor | frontend/src/features/reservations/routes/ReservationManagement.tsx:150 | the form's doctor when it is non-empty, else the edited appointment's, else 医師A; never empty |
| ReservationManagement.Edited | frontend/src/features/reservations/routes/ReservationManagement.tsx:165-176 | the edited appointment takes the form's fields over its own and the first selected pet's owner, name and id |
| ReservationManagement.EditChangesOnlyEdited | frontend/src/features/reservations/routes/ReservationManagement.tsx:168-176 | an edit keeps every other appointment and their order, and gives each appointment with the id the first pet |
| ReservationManagement.Created | frontend/src/features/reservations/routes/ReservationManagement.tsx:180-189 | a created appointment carries the form's times and the pet's owner, name and id, with the fresh id unless the form names one |
| ReservationManagement.CreateOnePerPet | frontend/src/features/reservations/routes/ReservationManagement.tsx:180-191 | creating makes one appointment per selected pet, in order, each at the form's times |
| ReservationManagement.CreateDoesNotDoubleBook | frontend/src/features/reservations/routes/ReservationManagement.tsx:158-191 | after a save passes the overlap check, no created appointment clashes with an existing live appointment of the same doctor |
| ReservationManagement.CreatedSiblingsOverlap | frontend/src/features/reservations/routes/ReservationManagement.tsx:180-191 | the appointments created for several pets in one save clash with one another, since the check does not look at them |
| ReservationManagement.Rescheduled | frontend/src/features/reservations/routes/ReservationManagement.tsx:214-217 | every appointment with the id gets the new times; the rest are kept in place |
| ReservationManagement.RescheduleIdempotent | frontend/src/features/reservations/routes/ReservationManagement.tsx:214-217 | moving an appointment twice to the same times is moving it once |
| ReservationManagement.WithStatus | frontend/src/features/reservations/routes/ReservationManagement.tsx:222-226 | every appointment with the id is replaced by the updated copy; the rest are kept in place |
| ReservationManagement.Deleted | frontend/src/features/reservations/routes/ReservationManagement.tsx:235 | the appointments left are exactly those with another id, and deleting an id no appointment has leaves the list as it was |
| ReservationManagement.DeleteRemovesExactlyId | frontend/src/features/reservations/routes/ReservationManagement.tsx:235 | deleting leaves exactly the appointments with another id, in their order |
| ReservationManagement.DeleteNeverAddsClash | frontend/src/features/reservations/routes/ReservationManagement.tsx:235 | a slot free before a delete is still free after it |
| ReservationManagement.NewAppointments | frontend/src/features/reservations/routes/ReservationManagement.tsx:180-189 | the loop builds exactly the one-per-pet list |
| ReservationManagement.ReservationBook.Save | frontend/src/features/reservations/routes/ReservationManagement.tsx:146-201 | saves exactly when the form has both times and a pet and the check finds no clash; an edit rewrites the edited appointment, a create appends one per pet, a refusal changes nothing |
| ReservationManagement.ReservationBook.Reschedule | frontend/src/features/reservations/routes/ReservationManagement.tsx:203-218 | moves exactly when the new times do not clash with another appointment of the doctor, otherwise changes nothing |
| ReservationManagement.ReservationBook.ChangeStatus | frontend/src/features/reservations/routes/ReservationManagement.tsx:221-230 | returns the appointment with the new status and writes it over every appointment with its id |
| ReservationManagement.ReservationBook.Delete | frontend/src/features/reservations/routes/ReservationManagement.tsx:233-239 | removes the appointments with the id only when confirmed |
| WeekView.Insert | frontend/src/features/reservations/components/WeekView.tsx:31-33 | inserting into a start-sorted list keeps it sorted and adds exactly the one appointment |
| WeekView.SortByStart | frontend/src/features/reservations/components/WeekView.tsx:31-33 | the day's appointments sorted by start: sorted and a permutation |
| WeekView.MaxEnd | frontend/src/features/reservations/components/WeekView.tsx:41-45 | the latest end of a cluster: no member ends later, and some member ends then |
| WeekView.ClusterFirst | frontend/src/features/reservations/components/WeekView.tsx:39-41 | the first appointment opens the first cluster |
| WeekView.ClusterJoin | frontend/src/features/reservations/components/WeekView.tsx:43-45 | an appointment starting before the open cluster's latest end joins it, and the latest end grows with it |
| WeekView.ClusterSplit | frontend/src/features/reservations/components/WeekView.tsx:46-49 | an appointment starting at or after that end closes the cluster and opens the next |
| WeekView.ClusterStep | frontend/src/features/reservations/components/WeekView.tsx:38-51 | one step of the loop over the sorted appointments keeps the clustering invariant |
| WeekView.ClusterClose | frontend/src/features/reservations/components/WeekView.tsx:53 | closing the last open cluster gives a clustering of everything seen |
| WeekView.Clusters | frontend/src/features/reservations/components/WeekView.tsx:34-53 | the clusters concatenate back to the sorted list; inside a cluster each appointment starts before the latest end of those before it, and each cluster starts no earlier than the previous one's latest end |
| WeekView.NextClusterStartsAfter | frontend/src/features/reservations/components/WeekView.tsx:38-53 | every appointment of a cluster ends by the start of the next cluster, so the two never overlap |
| WeekView.ColumnHasNoOverlap | frontend/src/features/reservations/components/WeekView.tsx:63-71 | in a column, an earlier appointment ends by the start of every later one, so no two overlap |
| WeekView.FirstFree | frontend/src/features/reservations/components/WeekView.tsx:63-72 | the column first fit picks: every earlier column is still busy at the start, and the picked one is free by then or is a new column after the last |
| WeekView.FirstFreeColumn | frontend/src/features/reservations/components/WeekView.tsx:63-72 | the first column whose last appointment ends by the start, or the column count when there is none; it is the column first fit picks |
| WeekView.FlattenUpdate | frontend/src/features/reservations/components/WeekView.tsx:67 | appending to one column adds exactly that appointment to the cluster's columns |
| WeekView.PlaceInExisting | frontend/src/features/reservations/components/WeekView.tsx:66-70 | appending to a free column keeps every column free of overlap and records the column |
| WeekView.PlaceInNew | frontend/src/features/reservations/components/WeekView.tsx:73-76 | opening a new column keeps every column free of overlap and records the new column |
| WeekView.Place | frontend/src/features/reservations/components/WeekView.tsx:61-77 | one appointment goes to the first column whose last appointment has ended by its start, every earlier column being still busy, or to a new column after the last; only that column grows, only its id is recorded anew, the result is one first-fit step, and the placing invariant holds |
| WeekView.PlaceInColumns | frontend/src/features/reservations/components/WeekView.tsx:58-77 | the columns and recorded column numbers are those of first fit over the cluster in order; the columns hold exactly the cluster's appointments, no two of a column overlapping; there are no more columns than appointments; each id has a recorded column that holds an appointment with that id; and, with unique ids and appointments ending no earlier than they start, two different overlapping appointments get different columns |
| WeekView.FitAll | frontend/src/features/reservations/components/WeekView.tsx:58-77 | first fit over a cluster, one appointment after another from no columns; no column it builds holds two overlapping appointments |
| WeekView.FitAllIsFirstFit | frontend/src/features/reservations/components/WeekView.tsx:61-77 | with unique ids, the column finally recorded for each appointment is the first of the columns opened before it that is free at its start, or a new one after them |
| WeekView.StyleCluster | frontend/src/features/reservations/components/WeekView.tsx:79-86 | each appointment of the cluster gets its recorded column and the cluster's column count; every other box is left as it was |
| WeekView.EventLayout | frontend/src/features/reservations/components/WeekView.tsx:28-90 | every appointment of the day gets a box and every box belongs to one; every column lies within its count; the clusters it used cut the sorted day as the clustering loop does; with unique ids each box holds the column first fit gives it in its cluster, that is the first column free at its start among those opened before it, or a new one, and the count is the number of columns first fit opens for the cluster, so one cluster shares one count; and when no appointment also ends before it starts, any two different overlapping appointments of the day get different columns |
| WeekView.LayoutFirstFit | frontend/src/features/reservations/components/WeekView.tsx:61-86 | with unique ids, a box holding first fit's column holds the first column free at its appointment's start among those opened before it in its cluster, or a new one |
| WeekView.FirstFitStep | frontend/src/features/reservations/components/WeekView.tsx:57-86 | styling a cluster with first fit's columns gives its appointments first fit's boxes and, with unique ids, leaves the earlier clusters' boxes alone |
| WeekView.ClusterUnique | frontend/src/features/reservations/components/WeekView.tsx:34-53 | with unique ids on the day, no id occurs twice within one cluster |
| WeekView.RecordedGrow | frontend/src/features/reservations/components/WeekView.tsx:66-76 | growing columns only at their ends and recording the grown column for the new id keeps every recorded column holding an appointment with its id |
| WeekView.OverlapApart | frontend/src/features/reservations/components/WeekView.tsx:63-70 | two different overlapping appointments of a placed cluster never share a recorded column |
| WeekView.PlacedApart | frontend/src/features/reservations/components/WeekView.tsx:58-77 | with unique ids and well-timed appointments, the placing keeps every two overlapping appointments in different columns |
| WeekView.LaterClusterStartsAfter | frontend/src/features/reservations/components/WeekView.tsx:38-53 | every appointment of a cluster ends by the start of every appointment of any later cluster, so the two never overlap |
| WeekView.LaterStartsNoEarlier | frontend/src/features/reservations/components/WeekView.tsx:31-53 | an appointment of a later cluster starts no earlier than the first appointment of an earlier one |
| WeekView.ClusterIdsApart | frontend/src/features/reservations/components/WeekView.tsx:34-53 | with unique ids on the day, appointments of different clusters have different ids, so one cluster's boxes never overwrite another's |
| WeekView.UniqueOnce | frontend/src/features/reservations/components/WeekView.tsx:84 | unique ids make each appointment occur at most once |
| WeekView.TwoClusters | frontend/src/features/reservations/components/WeekView.tsx:34-53 | an appointment found in two clusters would occur twice in the sorted day |
| WeekView.ChainedExtend | frontend/src/features/reservations/components/WeekView.tsx:43-44 | an appointment starting before the latest end keeps the open cluster chained |
| WeekView.MaxEndExtend | frontend/src/features/reservations/components/WeekView.tsx:45 | the latest end after appending is the larger of the old latest end and the new end |
| WeekView.ClusterOf | frontend/src/features/reservations/components/WeekView.tsx:34-53 | every sorted appointment lies in one of the clusters |
| WeekView.FlattenSplit | frontend/src/features/reservations/components/WeekView.tsx:34-53 | the clusters concatenate the same way split at any boundary |
| WeekView.StyleNext | frontend/src/features/reservations/components/WeekView.tsx:57-86 | one cluster's placing and styling extends the styling invariant to that cluster |
| WeekView.BoxesStep | frontend/src/features/reservations/components/WeekView.tsx:80-85 | after styling a cluster its appointments have boxes and earlier boxes survive |
| WeekView.PromisesStep | frontend/src/features/reservations/components/WeekView.tsx:57-86 | after styling a cluster the shared count and the distinct columns extend to it, without disturbing earlier clusters |
| WeekView.LayoutStep | frontend/src/features/reservations/components/WeekView.tsx:57-86 | the boxes of earlier clusters keep their shared count and distinct columns when a later cluster is styled |
| WeekView.StyledAll | frontend/src/features/reservations/components/WeekView.tsx:88-89 | after the last cluster the boxes cover the whole day, and overlapping appointments of the day have different columns |
| WeekView.DayApart | frontend/src/features/reservations/components/WeekView.tsx:38-86 | two overlapping appointments always fall in one cluster, so distinct columns within each cluster give distinct columns across the day |
| WeekView.CardTop | frontend/src/features/reservations/components/WeekView.tsx:127-132 | the top offset is the start's minute of the day at two pixels a minute |
| WeekView.CardHeight | frontend/src/features/reservations/components/WeekView.tsx:127-131 | the height is the duration at two pixels a minute, but never below 24 |
| WeekView.CardFitsDay | frontend/src/features/reservations/components/WeekView.tsx:127-135 | a card of at least twelve minutes starts inside the grid and ends at its end time, within the day's 2880 pixels |
| WeekView.OvernightCardIsSmallest | frontend/src/features/reservations/components/WeekView.tsx:128-131 | a card ending before its start time of day gets the minimum height |
| ReservationManagement.Spread | frontend/src/features/reservations/routes/ReservationManagement.tsx:169-171 | `{...app, ...data}`: a field the form carries replaces the appointment's, an empty form changes nothing |
| ReservationManagement.ReservationBook.constructor | frontend/src/features/reservations/routes/ReservationManagement.tsx:34 | the calendar starts with the given appointments |
| MasterItems.Merge | frontend/src/hooks/use-master-items.ts:171 | `{...i, ...updates}`: a present field of the patch wins, an empty patch changes nothing |
| MasterItems.Merged | frontend/src/hooks/use-master-items.ts:117-131 | the merged list is the stored list unchanged, followed by exactly the built-in items whose id is not stored, and is no longer than both lists together |
| MasterItems.MergeKeepsStoredAndAddsMissing | frontend/src/hooks/use-master-items.ts:117-131 | the merged list starts with the stored list unchanged, and every built-in item's id is present in it |
| MasterItems.MergeIdempotent | frontend/src/hooks/use-master-items.ts:117-131 | merging the built-in items into an already merged list changes nothing |
| MasterItems.MergeStep | frontend/src/hooks/use-master-items.ts:121-126 | one turn of the loop over the built-in items appends the item exactly when its id is not stored |
| MasterItems.MergeInitial | frontend/src/hooks/use-master-items.ts:117-131 | the loop yields the stored list followed by the built-in items whose ids it lacks |
| MasterItems.TargetCategory | frontend/src/hooks/use-master-items.ts:145 | a settings key names its mapped category; any other key is taken as the category itself |
| MasterItems.ByCategory | frontend/src/hooks/use-master-items.ts:144-147 | no key, "" or "all" keep every item; otherwise exactly the items in the target category; the order is kept |
| MasterItems.ByTerm | frontend/src/hooks/use-master-items.ts:149-157 | no keyword keeps every item; otherwise exactly the items whose name, code or category contains it, ignoring case; the order is kept |
| MasterItems.Updated | frontend/src/hooks/use-master-items.ts:169-172 | every item with the id is patched in place; the rest are kept |
| MasterItems.UpdateKeepsIds | frontend/src/hooks/use-master-items.ts:169-172 | a patch without an id leaves every item's id where it was |
| MasterItems.Removed | frontend/src/hooks/use-master-items.ts:177-178 | no item with the id is left, the rest stay in their order |
| MasterItems.RemoveUndoesAdd | frontend/src/hooks/use-master-items.ts:161-178 | removing a just-added item with a new id gives back the list before the add |
| MasterItems.MasterItemStore.constructor | frontend/src/hooks/use-master-items.ts:108-140 | with nothing usable stored the catalogue is the built-in one, otherwise the stored one merged with it |
| MasterItems.MasterItemStore.FilteredItems | frontend/src/hooks/use-master-items.ts:142-159 | an item is shown exactly when it is in the catalogue, passes the category filter and passes the keyword filter; the shown items keep the catalogue order, and with no filters they are the whole catalogue |
| MasterItems.MasterItemStore.Add | frontend/src/hooks/use-master-items.ts:161-167 | the new item gets the id tm_ followed by the clock in milliseconds and every field of the form, and is appended |
| MasterItems.MasterItemStore.Update | frontend/src/hooks/use-master-items.ts:169-175 | the catalogue becomes the updated one |
| MasterItems.MasterItemStore.Remove | frontend/src/hooks/use-master-items.ts:177-181 | the catalogue becomes the one without the id |
| AccountingDetail.Plus | frontend/src/features/accounting/routes/AccountingDetail.tsx:137-141 | a sum is a number exactly when both terms are; NaN spreads |
| AccountingDetail.Times | frontend/src/features/accounting/routes/AccountingDetail.tsx:135 | a price times a quantity is a number exactly when the price is |
| AccountingDetail.FloorPercent | frontend/src/features/accounting/routes/AccountingDetail.tsx:136 | Math.floor of an amount times a percentage: the largest whole yen not above the exact product, NaN for NaN |
| AccountingDetail.LeadingDigits | frontend/src/features/accounting/routes/AccountingDetail.tsx:155-176 | the longest run of digits the text starts with |
| AccountingDetail.ParseIntNeedsDigit | frontend/src/features/accounting/routes/AccountingDetail.tsx:155 | parseInt yields a number only for a text holding a digit, and a negative number only for a text holding a minus sign; anything else is NaN |
| AccountingDetail.ParseIntOfDigits | frontend/src/features/accounting/routes/AccountingDetail.tsx:176 | a text made only of digits reads as the number those digits spell |
| AccountingDetail.ParseIntOfDecimal | frontend/src/features/accounting/routes/AccountingDetail.tsx:176 | parseInt reads a whole number written in decimal back as that number |
| AccountingDetail.ParseIntEmpty | frontend/src/features/accounting/routes/AccountingDetail.tsx:176 | parseInt of the empty text is NaN |
| AccountingDetail.ParseIntIgnoresRest | frontend/src/features/accounting/routes/AccountingDetail.tsx:155 | parseInt stops at the first character after the digits, so "1200円" reads as 1200 |
| AccountingDetail.ParseIntNegative | frontend/src/features/accounting/routes/AccountingDetail.tsx:155 | a leading minus sign gives the negative number |
| AccountingDetail.Subtotal | frontend/src/features/accounting/routes/AccountingDetail.tsx:131-139 | the running sum of price times quantity is a number exactly when every line has a numeric price |
| AccountingDetail.TaxTotal | frontend/src/features/accounting/routes/AccountingDetail.tsx:132-139 | the running sum of the floored line taxes is a number exactly when every line has a numeric price |
| AccountingDetail.UnpricedLinePoisons | frontend/src/features/accounting/routes/AccountingDetail.tsx:134-139 | one line with a NaN price makes the subtotal and the tax total NaN |
| AccountingDetail.TaxRounding | frontend/src/features/accounting/routes/AccountingDetail.tsx:131-139 | with every line priced, the subtotal is the exact sum of the lines, and the tax total falls short of the exact tax by less than one yen per line |
| AccountingDetail.TaxAtMostTenth | frontend/src/features/accounting/routes/AccountingDetail.tsx:134-139 | with rates of at most 10% and no negative lines, the exact tax is at most a tenth of the subtotal |
| AccountingDetail.InsuranceAmount | frontend/src/features/accounting/routes/AccountingDetail.tsx:144-152 | no insurance takes nothing off |
| AccountingDetail.InsuranceBounds | frontend/src/features/accounting/routes/AccountingDetail.tsx:144-152 | with a ratio between 0% and 100%, the insurance share is a number between minus the insured subtotal and zero |
| AccountingDetail.Change | frontend/src/features/accounting/routes/AccountingDetail.tsx:156 | the change is never negative or NaN; a received amount above the bill gives exactly the difference, one at or below it gives 0, and a NaN on either side gives 0 |
| AccountingDetail.InsuredPriced | frontend/src/features/accounting/routes/AccountingDetail.tsx:146-148 | the insured lines are taken from the bill, so they are priced when the bill is |
| AccountingDetail.Calculated | frontend/src/features/accounting/routes/AccountingDetail.tsx:128-167 | the bill is a number exactly when every line is priced, and is then subtotal plus tax plus the (non-positive) insurance share; an empty amount received reads as 0; the change is never negative and, when what was received covers the bill, bill plus change is what was received |
| AccountingDetail.EmptyReceivedGivesNoChange | frontend/src/features/accounting/routes/AccountingDetail.tsx:155-156 | an empty amount received reads as 0, and then there is no change unless the bill is negative |
| AccountingDetail.PaidInFull | frontend/src/features/accounting/routes/AccountingDetail.tsx:154-156 | when what was received covers a priced bill, bill plus change equals what was received |
| AccountingDetail.SumLines | frontend/src/features/accounting/routes/AccountingDetail.tsx:131-139 | the loop over the lines yields the subtotal and the floored tax total of the bill |
| AccountingDetail.PaymentOf | frontend/src/features/accounting/routes/AccountingDetail.tsx:206-217 | the payment record carries the bill's amounts, what was received and the change, and no discount |
| AccountingDetail.DeleteRemovesOnlyThatLine | frontend/src/features/accounting/routes/AccountingDetail.tsx:198 | deleting keeps exactly the lines with another id, in their order |
| AccountingDetail.AddedLineAdds | frontend/src/features/accounting/routes/AccountingDetail.tsx:134-139 | adding a line adds its amount to the subtotal and its tax to the tax total |
| AccountingDetail.AccountingScreen.constructor | frontend/src/features/accounting/routes/AccountingDetail.tsx:107-115 | the screen starts with the given bill, insurance switch, amount received and method, and a 50% ratio |
| AccountingDetail.AccountingScreen.Calculate | frontend/src/features/accounting/routes/AccountingDetail.tsx:128-167 | no calculation without a bill, otherwise the amounts of the current bill and settings |
| AccountingDetail.AccountingScreen.AddItem | frontend/src/features/accounting/routes/AccountingDetail.tsx:169-192 | adds a line exactly when there is a bill and both the name and the price are filled in: id manual_ and the clock, the parsed price, quantity 1, 10% tax, not insured, appended at the end; nothing else changes |
| AccountingDetail.AccountingScreen.DeleteItem | frontend/src/features/accounting/routes/AccountingDetail.tsx:194-200 | the bill keeps only the lines with another id; nothing else changes |
| AccountingDetail.AccountingScreen.Complete | frontend/src/features/accounting/routes/AccountingDetail.tsx:202-222 | the bill is marked completed with a payment copied from the calculation, the ratio recorded only with insurance |
| HospitalizationForm.DiscountAmount | frontend/src/features/hospitalization/hooks/useHospitalizationForm.ts:155 | the discount in yen is the largest whole yen not above the exact percentage of the base amount |
| HospitalizationForm.Edited | frontend/src/features/hospitalization/hooks/useHospitalizationForm.ts:144-158 | the edit takes effect (its field holds the new value), every field but the discount amount and the subtotal is as `{...plan, [field]: value}` left it, and after a price, quantity or discount edit the discount is the floored percentage of price times quantity and the subtotal the rest |
| HospitalizationForm.RecomputedLineIsConsistent | frontend/src/features/hospitalization/hooks/useHospitalizationForm.ts:146-157 | after a price, quantity or discount edit, discount and subtotal add up to price times quantity, and a discount between 0% and 100% on a non-negative amount leaves a subtotal between nothing and the whole amount |
| HospitalizationForm.OtherEditsKeepAmounts | frontend/src/features/hospitalization/hooks/useHospitalizationForm.ts:145-158 | any other edit leaves price, quantity, discount amount and subtotal alone unless it sets one of them |
| HospitalizationForm.ContentEditIsPlain | frontend/src/features/hospitalization/hooks/useHospitalizationForm.ts:145 | editing the treatment text only sets that text |
| HospitalizationForm.EditIdempotent | frontend/src/features/hospitalization/hooks/useHospitalizationForm.ts:144-158 | applying the same edit twice is applying it once |
| HospitalizationForm.EditLine | frontend/src/features/hospitalization/hooks/useHospitalizationForm.ts:144-158 | one line after an edit: the field set, the amounts recomputed for a price, quantity or discount |
| HospitalizationForm.EditedPlans | frontend/src/features/hospitalization/hooks/useHospitalizationForm.ts:142-162 | every line with the id is edited in place; the others are kept |
| HospitalizationForm.EditAll | frontend/src/features/hospitalization/hooks/useHospitalizationForm.ts:142-162 | the loop over the lines builds exactly the edited plan |
| HospitalizationForm.BlankPlan | frontend/src/features/hospitalization/hooks/useHospitalizationForm.ts:119-129 | a new line costs nothing: price 0, quantity 1, no discount, subtotal 0 |
| HospitalizationForm.CalculateTotals | frontend/src/features/hospitalization/hooks/useHospitalizationForm.ts:165-182 | the subtotal before discount is the sum of the line subtotals, the global discount comes off it, the tax is a floored tenth and the total adds it |
| HospitalizationForm.TotalWithinTenPercent | frontend/src/features/hospitalization/hooks/useHospitalizationForm.ts:171-173 | for a non-negative discounted subtotal the total lies between it and 110% of it |
| HospitalizationForm.BlankLineAddsNothing | frontend/src/features/hospitalization/hooks/useHospitalizationForm.ts:118-131 | adding a new blank line leaves every total as it was |
| HospitalizationForm.RemovedSubtotals | frontend/src/features/hospitalization/hooks/useHospitalizationForm.ts:133-135 | removing the lines with an id takes exactly their subtotals off the sum |
| HospitalizationForm.RemoveUndoesAdd | frontend/src/features/hospitalization/hooks/useHospitalizationForm.ts:118-135 | removing a just-added line with a new id gives back the plan before the add |
| HospitalizationForm.PlanEditor.constructor | frontend/src/features/hospitalization/hooks/useHospitalizationForm.ts:42-68 | the editor starts with the given lines and no global discount |
| HospitalizationForm.PlanEditor.AddTreatmentPlan | frontend/src/features/hospitalization/hooks/useHospitalizationForm.ts:118-131 | a blank line with the clock as id is appended; the global discount is untouched |
| HospitalizationForm.PlanEditor.RemoveTreatmentPlan | frontend/src/features/hospitalization/hooks/useHospitalizationForm.ts:133-135 | the lines with the id are removed, the others keep their order |
| HospitalizationForm.PlanEditor.UpdateTreatmentPlan | frontend/src/features/hospitalization/hooks/useHospitalizationForm.ts:137-163 | the lines become the edited ones; the global discount is untouched |
| HospitalizationTypes.Merged | frontend/src/features/hospitalization/api/updateHospitalization.ts:15-18 | `{...stay, ...updates}`: a field the update carries replaces the stay's, the others are kept |
| HospitalizationTypes.MergedPlan | frontend/src/features/hospitalization/api/updateCarePlan.ts:15 | `{...plan, ...data}`: a field the data carries replaces the plan's, the others are kept |
| HospitalizationTypes.MergeIdempotent | frontend/src/features/hospitalization/api/updateHospitalization.ts:15-18 | merging the same update twice is merging it once, for stays and for plans |
| HospitalizationTypes.WithId | frontend/src/features/hospitalization/api/createCareLog.ts:12-15 | the new log is the data with the drawn id |
| HospitalizationTypes.WithIdRoundTrip | frontend/src/features/hospitalization/api/createCareLog.ts:12-15 | the new log keeps every field of the data: dropping the id gives the data back |
| Hospitalizations.FilteredHospitalizations | frontend/src/features/hospitalization/hooks/useHospitalizations.ts:28-53 | an order-preserving subsequence holding exactly the stays that pass the status filter and, for a non-empty term, contain it in the owner name, pet name or number, ignoring case |
| Hospitalizations.ActiveFilterKeeps | frontend/src/features/hospitalization/hooks/useHospitalizations.ts:34 | the "active" filter with no term keeps exactly the stays that are in hospital or home for a while |
| Hospitalizations.NoFilterShowsAll | frontend/src/features/hospitalization/hooks/useHospitalizations.ts:32-50 | "all" with no term lists every stay in order |
| Hospitalizations.SearchIgnoresCase | frontend/src/features/hospitalization/hooks/useHospitalizations.ts:43-48 | a term and its lower-case form match the same stays |
| Hospitalizations.Moved | frontend/src/features/hospitalization/hooks/useHospitalizations.ts:88-106 | the optimistic move changes no stay's position or number of stays |
| Hospitalizations.MoveUnknownIsNoOp | frontend/src/features/hospitalization/hooks/useHospitalizations.ts:77-78 | moving a stay that is not listed changes nothing |
| Hospitalizations.MoveToFreeCage | frontend/src/features/hospitalization/hooks/useHospitalizations.ts:99-104 | with no other in-hospital stay in the target cage, only the moved stay changes, to the target cage |
| Hospitalizations.MoveSwapsWithOccupant | frontend/src/features/hospitalization/hooks/useHospitalizations.ts:83-98 | with an occupant, the pet takes the target cage, the occupant takes the pet's old cage (or "" when it had none), and nothing else changes |
| Hospitalizations.SwapKeepsCages | frontend/src/features/hospitalization/hooks/useHospitalizations.ts:92-98 | a swap between two caged stays keeps the same cages on the board |
| Hospitalizations.CageUpdateSetsCage | frontend/src/features/hospitalization/hooks/useHospitalizations.ts:111-115 | the update sent to the store only sets the cage |
| Hospitalizations.MoveMatchesStoreUpdates | frontend/src/features/hospitalization/hooks/useHospitalizations.ts:88-116 | the optimistic list equals what the store holds after the updates movePet sends: one for a free cage, the pet's and then the occupant's for a swap |
| Hospitalizations.HospitalizationBoard.constructor | frontend/src/features/hospitalization/hooks/useHospitalizations.ts:8-26 | the board starts with the loaded stays |
| Hospitalizations.HospitalizationBoard.MovePet | frontend/src/features/hospitalization/hooks/useHospitalizations.ts:76-126 | the stays become the moved ones, or are rolled back to the old ones when the store fails |
| HospitalizationApi.UpdatedStays | frontend/src/features/hospitalization/api/updateHospitalization.ts:9-23 | the stored stays keep their number after an update |
| HospitalizationApi.UpdateTouchesOneStay | frontend/src/features/hospitalization/api/updateHospitalization.ts:9-23 | only the first stay with the id changes, to the merged stay |
| HospitalizationApi.UpdateThenFind | frontend/src/features/hospitalization/api/updateHospitalization.ts:9-26 | after an update that keeps the id, looking the id up again finds the merged stay at the same place |
| HospitalizationApi.PlanUpdateSucceeds | frontend/src/features/hospitalization/api/updateCarePlan.ts:12-27 | the update succeeds exactly when the first stay holding a plan with the id has a non-empty key |
| HospitalizationApi.PlanUpdateRewritesOnlyOwner | frontend/src/features/hospitalization/api/updateCarePlan.ts:12-25 | a successful update replaces the one plan by its merge and keeps every other plan and stay list in place |
| HospitalizationApi.UnknownPlanNotFound | frontend/src/features/hospitalization/api/updateCarePlan.ts:27 | a plan no stay holds fails with "Plan not found" and the stored plans stay as they were |
| HospitalizationApi.FindPlan | frontend/src/features/hospitalization/api/updateCarePlan.ts:12-20 | the loop stops at the first stay, in key order, holding the plan, and yields the plan merged with the data; nothing when no stay holds it |
| HospitalizationApi.RecordsAfterLog | frontend/src/features/hospitalization/api/createCareLog.ts:17-31 | adding a log keeps every record and adds at most one new one |
| HospitalizationApi.LogAppendedToRecordOfDate | frontend/src/features/hospitalization/api/createCareLog.ts:17-20 | with distinct record ids, the record of the date gets the log at the end and every other record is unchanged |
| HospitalizationApi.NewRecordForNewDate | frontend/src/features/hospitalization/api/createCareLog.ts:21-31 | with no record of the date, a new record of that date holding just the log is appended |
| HospitalizationApi.LogIsFoundByDate | frontend/src/features/hospitalization/api/createCareLog.ts:8-31 | whatever the records, the first record of the date afterwards ends with the new log |
| HospitalizationApi.AddLog | frontend/src/features/hospitalization/api/createCareLog.ts:10-31 | the record list is updated as the log-adding rule says |
| HospitalizationApi.HospitalizationStore.constructor | frontend/src/features/hospitalization/api/updateHospitalization.ts:8 | the store starts with the given stays, plan lists and daily records |
| HospitalizationApi.HospitalizationStore.UpdateHospitalization | frontend/src/features/hospitalization/api/updateHospitalization.ts:4-26 | fails with "Hospitalization not found" exactly when no stay has the id; otherwise stores and returns the merged stay; plans and records are untouched |
| HospitalizationApi.HospitalizationStore.UpdateCarePlan | frontend/src/features/hospitalization/api/updateCarePlan.ts:4-27 | returns the plan-update result and stores the plans after it; stays and records are untouched |
| HospitalizationApi.HospitalizationStore.CreateCareLog | frontend/src/features/hospitalization/api/createCareLog.ts:4-34 | returns the data with the drawn id, and stores the stay's records with the log added under the trimmed date |
| DailyRecordLogic.CurrentRecord | frontend/src/features/hospitalization/hooks/useDailyRecordLogic.ts:8-11 | the first record whose date is the trimmed chosen date; none exactly when no record has it |
| DailyRecordLogic.CompletingLog | frontend/src/features/hospitalization/hooks/useDailyRecordLogic.ts:22-24 | the first completed log of the plan's type whose notes mention the plan's name; none exactly when there is no record or no such log |
| DailyRecordLogic.PlanTasks | frontend/src/features/hospitalization/hooks/useDailyRecordLogic.ts:15-25 | one task per timing of the plan, in timing order |
| DailyRecordLogic.Tasks | frontend/src/features/hospitalization/hooks/useDailyRecordLogic.ts:13-27 | there are as many tasks as timings over all plans, and every task carries the id of a plan and one of that plan's timings |
| DailyRecordLogic.TaskHasPlanTiming | frontend/src/features/hospitalization/hooks/useDailyRecordLogic.ts:14-26 | every task is the task of some plan at one of its timings |
| DailyRecordLogic.PlanTimingHasTask | frontend/src/features/hospitalization/hooks/useDailyRecordLogic.ts:14-26 | every timing of every plan has its task |
| DailyRecordLogic.TasksArePlanTimings | frontend/src/features/hospitalization/hooks/useDailyRecordLogic.ts:13-27 | the tasks are exactly the plans' timings, one for each |
| DailyRecordLogic.TasksAppend | frontend/src/features/hospitalization/hooks/useDailyRecordLogic.ts:14 | the tasks of two plan lists are the two task lists in order |
| DailyRecordLogic.TaskCompletion | frontend/src/features/hospitalization/hooks/useDailyRecordLogic.ts:22-24 | a task is completed exactly when the day's record has a log completing it |
| DailyRecordLogic.NoRecordNothingCompleted | frontend/src/features/hospitalization/hooks/useDailyRecordLogic.ts:22 | without a record of the day no task is completed |
| DailyRecordLogic.Grouped | frontend/src/features/hospitalization/hooks/useDailyRecordLogic.ts:29-33 | the morning, noon and night groups hold exactly the tasks at that timing |
| DailyRecordLogic.GroupsAreDisjoint | frontend/src/features/hospitalization/hooks/useDailyRecordLogic.ts:29-33 | a morning, noon or night task is in its own group and in no other |
| DailyRecordLogic.GroupsCoverTasks | frontend/src/features/hospitalization/hooks/useDailyRecordLogic.ts:29-33 | the three groups and the tasks at other timings add up to all tasks |
| DailyRecordLogic.OneTaskInOneGroup | frontend/src/features/hospitalization/hooks/useDailyRecordLogic.ts:29-33 | a single task falls in exactly one of the groups or among the ungrouped |
| DailyRecordLogic.VitalItems | frontend/src/features/hospitalization/hooks/useDailyRecordLogic.ts:38-47 | one timeline item per vital |
| DailyRecordLogic.LogItems | frontend/src/features/hospitalization/hooks/useDailyRecordLogic.ts:49-56 | one timeline item per care log |
| DailyRecordLogic.NoteItems | frontend/src/features/hospitalization/hooks/useDailyRecordLogic.ts:58-63 | one timeline item per staff note |
| DailyRecordLogic.LatestFirstPairs | frontend/src/features/hospitalization/hooks/useDailyRecordLogic.ts:65 | in a latest-first list no item is later than one before it |
| DailyRecordLogic.NotLaterIsEarlier | frontend/src/features/hospitalization/hooks/useDailyRecordLogic.ts:65 | the time comparison is total |
| DailyRecordLogic.InsertByTime | frontend/src/features/hospitalization/hooks/useDailyRecordLogic.ts:65 | inserting into a latest-first list keeps it latest first and adds exactly the item |
| DailyRecordLogic.SortLatestFirst | frontend/src/features/hospitalization/hooks/useDailyRecordLogic.ts:65 | the sort is latest first and a permutation |
| DailyRecordLogic.Timeline | frontend/src/features/hospitalization/hooks/useDailyRecordLogic.ts:35-66 | nothing without a record; otherwise exactly the record's vitals, logs and notes, latest first |
| DailyRecordLogic.TimelineStartsWithLatest | frontend/src/features/hospitalization/hooks/useDailyRecordLogic.ts:35-66 | the first timeline item is at least as late as every vital, log and note of the record |
| HospitalizationApi.PlansAfterUpdate | frontend/src/features/hospitalization/api/updateCarePlan.ts:12-25 | the stored plan lists keep their number after an update |

## Left out

Backend:
- Database access is not modelled. Each repository is a map. Ids the database assigns and the clock are parameters. Failures of the database on create, save and delete cannot happen in the model, for owners, pets and medical records alike. The one database failure modelled is that of the owner lookup by id: OwnerService.OwnerStore.FindOwner, GetOwnerByID, UpdateOwner and DeleteOwner take it as the `fault` parameter, because the owner service inspects that error's text. OwnerService.OwnerStore.CreateOwner has no such parameter and always succeeds.
- GetAllMedicalRecords, GetMedicalRecordsByPetID and GetMedicalRecordsByOwnerID are left out. They only forward to the repository.
- The medical-record service's own nil-record branch (backend/internal/service/medical_record.go:43-44) is not modelled. The repository never returns a nil record without an error.
- Pet weight is a `real`. Float64 rounding is not modelled.
- The owner validators are modelled, but the owner service never calls them. Owner create and update store the request as given.
- The paginated listing ignores the pet, owner, date and status query parameters the API documentation describes. The model follows the code.
- Go's `len` on strings is the UTF-8 byte length. The model counts UTF-8 bytes per character and does not model invalid UTF-8.
- PetService.PetStore.CreatePet copies the gender from the request into the new pet, as backend/internal/service/pet.go does.

Frontend:
- Rendering, toasts, console output, navigation, timers (`setTimeout`) and the simulated network delay are left out.
- Random ids, `Date.now()` and `Date.getHours()` are parameters.
- Common.Lower models `toLowerCase` on ASCII letters only. String order (`<` and `localeCompare`) is modelled as lexicographic order on characters, which ignores UTF-16 surrogate pairs and locale rules.
- DashboardKanban.Board.MoveCard takes a non-negative hover index. A negative index would make the source read a property of `undefined` and throw. The toast throttling through `lastAlertRef` is left out.
- ReservationManagement.Created gives a field the form left out a blank value: "" for text, 0 for times, false for flags. The source leaves it `undefined`.
- ReservationManagement.CheckOverlap frees a slot only for the status spelled "cancelled". An appointment marked "canceled" still blocks it, and the model keeps that.
- ReservationManagement.CheckOverlap excludes an appointment from its own check only when its id is non-empty. JavaScript treats "" as false.
- ReservationManagement.CreatedSiblingsOverlap: the appointments one save creates for several pets overlap one another. The source allows this, and the model keeps it.
- Times in ReservationManagement and WeekView are whole milliseconds.
- WeekView.EventLayout yields each box's column and the column count. The percentage strings derived from them are left out.
- WeekView.EventLayout states first-fit boxes, shared counts and distinct columns only when the day's ids are unique. A repeated id makes a later box overwrite an earlier one, as the record keyed by id does. Distinct columns also assume that no appointment ends before it starts.
- WeekView.EventLayout does not state that every column below the count is used.
- WeekView.SortByStart proves the result is sorted and a permutation. It does not prove the sort is stable.
- DailyRecordLogic.SortLatestFirst proves the result is latest first and a permutation. It does not prove the sort is stable.
- AccountingDetail.InsuranceAmount uses whole-number percentages (50, 70, 90, 100) for the ratios "0.5" to "1.0". It does not model floating-point products.
- AccountingDetail.ParseInt does not model numbers too large for a double.
- createInitialAccounting and the mock data are left out. The bill is a constructor parameter.
- MasterItems.TargetCategory treats only the twelve mapped keys specially. A key naming an `Object.prototype` property, such as "constructor", is taken as a category name here, while the source would look it up on the prototype.
- MasterItems.Merge treats a patch field present with the value `undefined` as absent.
- DashboardKanban.Overlay treats a field present with the value `undefined` as absent, as MasterItems.Merge does; the object spread would copy the `undefined`.
- ReservationManagement.Spread treats a field present with the value `undefined` as absent, as MasterItems.Merge does; the object spread would copy the `undefined`.
- HospitalizationTypes.Merged treats an update field present with the value `undefined` as absent, as MasterItems.Merge does; the object spread would copy the `undefined`.
- HospitalizationTypes.MergedPlan treats a data field present with the value `undefined` as absent, as MasterItems.Merge does; the object spread would copy the `undefined`.
- Reading the stored master items is an Option: None stands for nothing stored, an empty string or a parse failure. Writing them back to storage is left out.
- HospitalizationForm.DiscountAmount computes the exact floor of price times quantity times percent over 100. The source floors the double product `baseAmount * (discount / 100)`, and `discount / 100` is not exact in binary: a base of 100 at 29% gives 28 in the source (100 × 0.29 is 28.999999999999996) and 29 here. The two agree whenever the double product is exact, for example at 0%, 25%, 50% and 100%.
- HospitalizationForm.EditLine, HospitalizationForm.Edited, HospitalizationForm.EditedPlans, HospitalizationForm.EditAll and HospitalizationForm.PlanEditor.UpdateTreatmentPlan inherit that exact discount, so after a price, quantity or discount edit their discount amount can be one yen above the source's and their subtotal one yen below (100 at 29%: discount 29 and subtotal 71 here, 28 and 72 in the source).
- The hospitalization status constants are assumed: 入院中, 一時帰宅, 退院済 and 予約. Their definition is not part of this model.
- HospitalizationApi.PlanUpdateResult walks the stored plan object in key order. That order is the list order of `PlanEntry`, with distinct keys. An owner key of "" makes the update fail, as in the source.
- Hospitalizations.HospitalizationBoard.MovePet receives the store's outcome as the `storeFailed` parameter. It applies the optimistic update to the list it was called with.
- handleUpdateHospitalization (frontend/src/features/hospitalization/hooks/useHospitalizations.ts:55-74) is not modelled. Its store call is HospitalizationApi.HospitalizationStore.UpdateHospitalization.
- The mock fallback data of the hospitalization store is left out.

## Findings

| source | as written | input that shows it | evidently intended | confidence | as-written member | corrected member |
|---|---|---|---|---|---|---|
| backend/internal/validation/medical_record.go:113 | a rejected medical-record request is a plain error with no InvalidInput kind, so the handler answers it 500 | a create request with an empty pet_id | the rejection is InvalidInput and is answered 400, as pet and owner rejections are | high, not executed | MedicalRecordValidation.EmptyCreateRequestIsServerError | MedicalRecordValidation.InvalidInputRejection |
| backend/internal/repository/medical_record.go:60 | the not-found error passes its whole message template as the resource name, so the text keeps "%s" and says "not found" twice | GetMedicalRecordByID with a well-formed id that has no record | the text "medical record with id <id> not found: resource not found" | high, not executed | MedicalRecordService.NotFoundTextKeepsPlaceholder | MedicalRecordService.IntendedRecordNotFound |
| backend/internal/handler/medical_record.go:253 | the offset (page-1)*limit is computed in int64 and can wrap around | page=922337203685477582 and limit=10: the offset wraps to -9223372036854775806, and slicing with it panics | a page past the last is empty | high, not executed | Pagination.HugePageWrapsStart | Pagination.HugePageIsEmpty |

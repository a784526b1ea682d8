# Hamro Sewa backend: booking lifecycle and loyalty ledger

A Dafny model of the core of the Hamro Sewa service marketplace backend (Java,
Spring Boot, JPA). Customers book services that providers list. A booking moves
through PENDING, CONFIRMED, COMPLETED, CANCELLED and REJECTED. Every completed
booking without a discount advances a per-(customer, provider) loyalty counter.
At four completions the customer earns a 20% discount on the next booking with
that provider, and using the discount resets the counter.

Around that core the model covers:
- the loyalty progress read-outs and the repair endpoint that rebuilds counters;
- the admin commission on completed bookings;
- the review gates;
- the service catalog's approval workflow;
- the registration validators;
- the OTP store;
- the token blacklist;
- the notification store;
- account registration and profile updates for customers, providers and admins;
- the role table.

How the model is built:
- Each JPA entity is a `datatype` value, such as `BookingModel.ServiceBooking`
  or `BookingModel.LoyaltyTracker`.
- Each repository is a `map` or `seq` field of the service `class` that owns it.
- Setters become record updates, and `save` becomes a map update.
- The `@PrePersist` and `@PreUpdate` hooks are functions the save steps apply.
  For a row that already exists, `@PreUpdate` runs only when the row changed,
  as Hibernate's dirty check does.
- `LocalDateTime.now()` is an `Instant` parameter, read once per request.
- Notifications and e-mails go to a ghost `Events.EventLog`.
- A `noticeFails` flag says that the notification service throws.
- A request that throws inside a `@Transactional` method returns `Err` and
  leaves every table and the log as they were (`Untouched()`).
- Money is `real`, so exact like `BigDecimal`. `Money.RoundHalfUp2` is
  `setScale(2, HALF_UP)`.
- The regexes of `ValidationUtil` are predicates over characters. Each has a
  checker beside it and a lemma tying the two together.

Where the design of the system and its code disagree, the model follows the code:
- `validateStatusTransition` forbids only three things: leaving CANCELLED,
  leaving COMPLETED, and going from PENDING to COMPLETED. REJECTED is not
  terminal, CONFIRMED may go back to PENDING, and REJECTED may go to COMPLETED.
  `Bookings.TransitionsVersusDesign` states the difference.
- The design calls notification delivery fire-and-forget. In the code, several
  notifications sit outside any try block, and their failure rolls the request
  back:
  - the two discount notices of `createBooking`;
  - the status notices of `updateBookingStatus`;
  - the approve, reject and delete notices of the catalog.
  The model does the same.
- The design asks that a failing ledger update undo a cancellation. The code
  catches and logs a failure of `preserveLoyaltyDiscount`, and the update goes
  on. The model does the same.

## Model

Source paths are relative to the repository root.

| member | source | states |
|---|---|---|
| Bookings.ValidateStatusTransition | src/main/java/project/hamrosewa/service/ServiceBookingService.java:285-297 | A transition fails exactly when it leaves CANCELLED or COMPLETED, or goes PENDING to COMPLETED. The first case reports the terminal status; the second says the booking must be confirmed first. |
| Bookings.TransitionTable | src/main/java/project/hamrosewa/service/ServiceBookingService.java:285-297 | The accepted (from, to) pairs are exactly the 14 listed: 4 from PENDING, and all 5 from CONFIRMED and from REJECTED. |
| Bookings.TransitionsVersusDesign | src/main/java/project/hamrosewa/service/ServiceBookingService.java:285-297 | Every designed transition is accepted. REJECTED to COMPLETED and CONFIRMED to PENDING are accepted too, although the design does not allow them. |
| Bookings.CompletedIsFinal | src/main/java/project/hamrosewa/service/ServiceBookingService.java:286-290 | After COMPLETED, no sequence of later requests makes the ledger run again. |
| Bookings.LedgerRunsAtMostOnce | src/main/java/project/hamrosewa/service/ServiceBookingService.java:182-197 | Whatever status requests arrive, in any order, the ledger counts a booking at most once, and never counts one that is already completed. |
| Bookings.NoCompletionEmail | src/main/java/project/hamrosewa/service/ServiceBookingService.java:241-275 | An accepted update sends notifications only, and never the completion e-mail of the block after the early return. It notifies exactly for COMPLETED, CONFIRMED and CANCELLED. |
| Bookings.LedgerEffectCounts | src/main/java/project/hamrosewa/service/ServiceBookingService.java:182-235 | A status update changes only the booking's own (customer, provider) count. Completing an undiscounted booking adds exactly one. Cancelling a discounted booking with preserveLoyalty raises a count below 4 to exactly 4 and leaves a higher count as it was, so the customer stays eligible. Other statuses leave the table alone. |
| Bookings.ServiceBookingService.GetBookingById | src/main/java/project/hamrosewa/service/ServiceBookingService.java:150-153 | Returns the stored booking when the id exists, and BookingNotFound for that id otherwise. |
| Bookings.ServiceBookingService.CreateBooking | src/main/java/project/hamrosewa/service/ServiceBookingService.java:43-148 | A customer id outside the Java int range fails first, with the ArithmeticException of Math.toIntExact. Then customer, service and approval are checked in that order, and any failure changes nothing. A discount applies iff the pair is eligible and the flag is true; a null flag counts as false. A discounted booking stores 0.20 and the discounted price, and the pair's counter is reset. Otherwise the booking stores the full price as both prices, and the tracker row is created if missing with its count unchanged. The booking is saved PENDING under the next id. A failing discount notice rolls everything back; the confirmation notices' failure is swallowed. |
| Bookings.ServiceBookingService.Insert | src/main/java/project/hamrosewa/model/ServiceBooking.java:63-67 | Saving a new booking gives it the next id, and @PrePersist stamps both timestamps with the clock. |
| Bookings.ServiceBookingService.UpdateBookingStatus | src/main/java/project/hamrosewa/service/ServiceBookingService.java:168-278 | An unknown booking and a refused transition change nothing. A failing notification rolls back. Otherwise the update sets status, comment and updatedAt. The tracker table becomes the ledger effect of the new status, and the notices keyed on the new status are logged. Completion adds the discount notice when the count reaches 4. |
| Bookings.ServiceBookingService.CancelBooking | src/main/java/project/hamrosewa/service/ServiceBookingService.java:281-283 | Succeeds iff the booking exists, may be cancelled and the notices go out. It then sets CANCELLED with "Cancelled by system" and never touches the loyalty table. A failure changes nothing. |
| BookingModel.NewBookingDefaults | src/main/java/project/hamrosewa/model/ServiceBooking.java:30-55 | A fresh booking is PENDING, has no discount and is dated at its construction instant. Its percentage and both prices are null. |
| BookingModel.BookingHooks | src/main/java/project/hamrosewa/model/ServiceBooking.java:63-72 | On persist, createdAt and updatedAt are both the clock. A later update moves only updatedAt, and every other field is untouched. |
| Loyalty.CalculateDiscountedPrice | src/main/java/project/hamrosewa/service/LoyaltyService.java:80-87 | A null price gives 0. Otherwise the result is a whole number of cents within half a cent of 80% of the price. |
| Loyalty.DiscountedPriceBounds | src/main/java/project/hamrosewa/service/LoyaltyService.java:80-87 | For a non-negative whole-cent price, the discounted price lies between 0 and the price. |
| Loyalty.RoundHalfUpWithin | src/main/java/project/hamrosewa/service/LoyaltyService.java:85-86 | Rounding a non-negative amount of at most k cents stays within 0 and k cents. |
| Loyalty.DiscountedPriceExamples | src/main/java/project/hamrosewa/service/LoyaltyService.java:80-87 | 100 becomes 80.00, 50 becomes 40.00, 19.99 becomes 15.99, and null becomes 0. |
| Loyalty.SubCentPriceRoundsUp | src/main/java/project/hamrosewa/service/LoyaltyService.java:80-87 | The price bound needs whole cents: 0.007 is "discounted" to 0.01. |
| Loyalty.WithCountEffect | src/main/java/project/hamrosewa/service/LoyaltyService.java:94-107 | Setting a pair's count writes exactly that count. The row keeps its key and creation time, and no other pair's row changes. |
| Loyalty.TouchedEffect | src/main/java/project/hamrosewa/service/LoyaltyService.java:94-107 | getOrCreate changes a table only by adding the pair's zero row, keeps the count, and asking twice creates no second row. |
| Loyalty.IncrementedCount | src/main/java/project/hamrosewa/service/LoyaltyService.java:46-58 | Counting a booking adds exactly one to that pair and leaves every other pair's count unchanged. |
| Loyalty.ResetIdempotent | src/main/java/project/hamrosewa/service/LoyaltyService.java:127-131 | A reset leaves the pair at 0. A second reset, at any later instant, changes nothing, not even updatedAt. |
| Loyalty.PreservedEffect | src/main/java/project/hamrosewa/service/LoyaltyService.java:110-118 | A count below 4 becomes exactly 4, and a count of 4 or more is left as it is. The customer is then eligible, no other pair's row changes, and preserving again changes nothing. |
| Loyalty.FourCompletionsEarnDiscount | src/main/java/project/hamrosewa/service/LoyaltyService.java:22-23 | After a reset, three counted completions are not enough for the discount and four are. |
| Loyalty.LoyaltyService.GetOrCreateLoyaltyTracker | src/main/java/project/hamrosewa/service/LoyaltyService.java:94-107 | Returns the pair's existing row, or creates and saves a zero row. The returned count is the stored count before the call. |
| Loyalty.LoyaltyService.ShouldApplyDiscount | src/main/java/project/hamrosewa/service/LoyaltyService.java:75-78 | True iff the pair's count is at least 4. A missing row is created at 0. |
| Loyalty.LoyaltyService.GetCompletedBookingsCount | src/main/java/project/hamrosewa/service/LoyaltyService.java:89-92 | The pair's stored count, 0 for an unseen pair, whose row is then created. |
| Loyalty.LoyaltyService.ProcessCompletedBooking | src/main/java/project/hamrosewa/service/LoyaltyService.java:32-73 | Only a COMPLETED booking without a discount is counted, and then exactly its pair gains one. The discount notice goes out only when the new count equals 4. If that notice throws, nothing changes. |
| Loyalty.LoyaltyService.PreserveLoyaltyDiscount | src/main/java/project/hamrosewa/service/LoyaltyService.java:110-118 | A count below 4 is raised to 4; a count of 4 or more is left alone. |
| Loyalty.LoyaltyService.ResetLoyaltyCounter | src/main/java/project/hamrosewa/service/LoyaltyService.java:127-131 | The pair's count becomes 0, and no other row changes. |
| LoyaltyProgress.BookingsNeededRange | src/main/java/project/hamrosewa/controller/LoyaltyController.java:62 | The bookings still needed lie in [0, 4], are 0 exactly when the customer is eligible, and add up with the count to 4 otherwise. The flag-based formula of the all-providers endpoint gives the same number. |
| LoyaltyProgress.TouchedAllKeepsCounts | src/main/java/project/hamrosewa/controller/LoyaltyController.java:87-102 | Reading progress for any list of providers changes no count. |
| LoyaltyProgress.CompletedWith | src/main/java/project/hamrosewa/repository/ServiceBookingRepository.java:29-30 | A booking is in the result exactly when it is one of the rows, is COMPLETED, belongs to the customer, and is for a service of the provider. |
| LoyaltyProgress.Undiscounted | src/main/java/project/hamrosewa/controller/LoyaltyController.java:131-141 | The number of replayed bookings that the ledger counts is at most the number replayed. |
| LoyaltyProgress.Replay | src/main/java/project/hamrosewa/controller/LoyaltyController.java:131-141 | A provider's repair report never shows a rebuilt count above the number of bookings it replayed, and the count is never negative. |
| LoyaltyProgress.LoyaltyController.GetLoyaltyProgress | src/main/java/project/hamrosewa/controller/LoyaltyController.java:44-73 | A missing customer, then a missing provider, is an error before any ledger call. Otherwise the entry holds the pair's count, the bookings still needed and the eligibility, and the only table change is the pair's zero row. |
| LoyaltyProgress.LoyaltyController.GetAllLoyaltyProgress | src/main/java/project/hamrosewa/controller/LoyaltyController.java:82-110 | There is one entry per provider, in the providers' order, each with that pair's count, bookings needed and eligibility. |
| LoyaltyProgress.LoyaltyController.ReplayProvider | src/main/java/project/hamrosewa/controller/LoyaltyController.java:128-141 | Resetting and replaying one provider leaves its count equal to the customer's undiscounted completed bookings with it. Only that pair's row changes, and the discount notice goes out iff the rebuilt count reaches 4. |
| LoyaltyProgress.LoyaltyController.FixLoyaltyTracking | src/main/java/project/hamrosewa/controller/LoyaltyController.java:120-151 | An unknown customer changes nothing. Otherwise, for every provider, the count becomes the number of the customer's completed bookings with that provider that used no discount. The response reports each replay. No other customer's or provider's row changes, and one discount notice goes out per provider whose rebuilt count reaches 4. |
| LoyaltyProgress.LoyaltyController.ReplayAll | src/main/java/project/hamrosewa/controller/LoyaltyController.java:128-143 | The loop over providers builds exactly the repair's report and leaves every row outside it as before. |
| AdminAccounts.CompletedOnly | src/main/java/project/hamrosewa/repository/ServiceBookingRepository.java:25-26 | Keeps exactly the COMPLETED bookings. |
| AdminAccounts.TotalAppend | src/main/java/project/hamrosewa/service/AdminService.java:204-213 | The commission total of two lists of bookings is the sum of their totals. |
| AdminAccounts.TotalNonNegative | src/main/java/project/hamrosewa/service/AdminService.java:204-213 | With non-negative prices the total is non-negative. |
| AdminAccounts.EarningsBounds | src/main/java/project/hamrosewa/service/AdminService.java:201-217 | Earnings are 0.00 without completed bookings, and non-negative when no completed booking has a negative price. |
| AdminAccounts.OnlyCompletedContribute | src/main/java/project/hamrosewa/service/AdminService.java:201-217 | A booking that is not COMPLETED never changes the earnings. A completed one adds its effective price, the discounted price if a discount applied, to the total. |
| AdminAccounts.CompletedOnlyAppend | src/main/java/project/hamrosewa/service/AdminService.java:202 | Appending a booking appends it to the completed list iff it is COMPLETED. |
| AdminAccounts.CalculateAdminEarnings | src/main/java/project/hamrosewa/service/AdminService.java:201-217 | The loop returns 20% of the sum of the completed bookings' non-null effective prices, rounded HALF_UP to cents. |
| AdminAccounts.AdminUpdate | src/main/java/project/hamrosewa/service/AdminService.java:94-148 | The update is rejected with UsernameExists exactly when the form gives a username that differs from the admin's own and that another user holds. It is rejected with EmailExists, and then PhoneExists, exactly when the earlier tests pass and the same holds for the email, or for the phone. On success, a changed username, email or phone is one no other user held. Each non-null field replaces the stored one and a null field keeps it; the password changes only to a non-empty value, stored encoded. Id, role and department are kept, and the earnings are the recomputed value. |
| AdminAccounts.AdminUpdateKeepsUnique | src/main/java/project/hamrosewa/service/AdminService.java:94-122 | A successful admin update keeps usernames, emails and phone numbers unique. |
| AdminAccounts.NullFormOnlyRefreshesEarnings | src/main/java/project/hamrosewa/service/AdminService.java:124-148 | An update form of nulls changes nothing but the earnings. |
| AdminAccounts.AdminService.RegisterAdmin | src/main/java/project/hamrosewa/service/AdminService.java:52-85 | A used username, email or phone, first hit first, is an error with nothing saved. Otherwise the admin is saved under the next id with the encoded password, the ROLE_ADMIN row and no department or earnings. |
| AdminAccounts.AdminService.UpdateAdmin | src/main/java/project/hamrosewa/service/AdminService.java:87-151 | An unknown admin is an error. A rejected field leaves the table unchanged. Otherwise the row becomes the update with the earnings of the current bookings, and the table stays unique. |
| CustomerAccounts.CustomerUpdate | src/main/java/project/hamrosewa/service/CustomerService.java:122-168 | The update is rejected with UsernameExists exactly when the form gives a non-empty username that differs from the customer's own and that another user holds. It is rejected with EmailExists, and then PhoneExists, exactly when the earlier tests pass and the same holds for the email, or for the phone. On success, a changed username, email or phone is non-empty and one no other user held. Username, email, phone, password, address and full name change only to a non-null, non-empty value, and the password is stored encoded. Date of birth and image change to any non-null value. Id and role never change. |
| CustomerAccounts.CustomerUpdateKeepsUnique | src/main/java/project/hamrosewa/service/CustomerService.java:122-147 | A successful customer update keeps usernames, emails and phone numbers unique. |
| CustomerAccounts.EmptyFormChangesNothing | src/main/java/project/hamrosewa/service/CustomerService.java:122-168 | A form of nulls, or of empty strings, leaves the customer exactly as stored. |
| CustomerAccounts.CustomerService.RegisterCustomer | src/main/java/project/hamrosewa/service/CustomerService.java:50-96 | A used username, email or phone, first hit first, is an error with nothing saved. Otherwise the customer is saved with ROLE_CUSTOMER and the encoded password, and every admin gets exactly one ACCOUNT_CREATED notice. A failing notice rolls back. |
| CustomerAccounts.CustomerService.NotifyAdmins | src/main/java/project/hamrosewa/service/CustomerService.java:86-95 | The loop appends exactly one ACCOUNT_CREATED notice per admin, and nothing else. |
| CustomerAccounts.CustomerService.GetCustomerInfo | src/main/java/project/hamrosewa/service/CustomerService.java:98-104 | A one-element list holding the customer, or an error iff there is no such customer. |
| CustomerAccounts.CustomerService.UpdateCustomer | src/main/java/project/hamrosewa/service/CustomerService.java:117-171 | An unknown customer is an error. A rejected field leaves the table unchanged. Otherwise the row becomes the update, and usernames, emails and phone numbers stay unique. |
| ProviderAccounts.ProviderUpdate | src/main/java/project/hamrosewa/service/ServiceProviderService.java:83-128 | The update is rejected with UsernameExists exactly when the form gives a username that differs from the provider's own and that any user holds. It is rejected with EmailExists, and then PhoneExists, exactly when the earlier tests pass and the same holds for the email, or for the phone. On success, a changed username, email or phone is one nobody held. Each non-null field replaces the stored one and a null field keeps it; the password changes only to a non-empty value, stored encoded. The image is exactly the one supplied, so none removes the old one. Id and role never change. |
| ProviderAccounts.ProviderUpdateKeepsUnique | src/main/java/project/hamrosewa/service/ServiceProviderService.java:83-105 | A successful provider update keeps usernames, emails and phone numbers unique. |
| ProviderAccounts.ServiceProviderService.RegisterServiceProvider | src/main/java/project/hamrosewa/service/ServiceProviderService.java:41-75 | A used username, email or phone, first hit first, is an error with nothing saved. Otherwise the provider is saved with ROLE_SERVICE_PROVIDER and the encoded password. |
| ProviderAccounts.ServiceProviderService.UpdateServiceProvider | src/main/java/project/hamrosewa/service/ServiceProviderService.java:78-131 | An unknown provider is an error. A rejected field leaves the table unchanged. Otherwise the row becomes the update, and the table stays unique. |
| ProviderAccounts.ServiceProviderService.GetServiceProviderById | src/main/java/project/hamrosewa/service/ServiceProviderService.java:143-145 | The provider iff one has that id, and null otherwise. |
| ProviderAccounts.ServiceProviderService.GetProviderServices | src/main/java/project/hamrosewa/service/ServiceProviderService.java:147-153 | An error iff the provider is unknown. Otherwise exactly the catalog entries that provider offers. |
| ProviderAccounts.ServiceProviderService.GetServiceProviderImage | src/main/java/project/hamrosewa/service/ServiceProviderService.java:175-184 | An unknown provider, then a provider without an image, is an error. Otherwise the stored image name. |
| ProviderCatalog.FromForm | src/main/java/project/hamrosewa/service/ProviderServiceService.java:122-132 | Only non-null name, description, price and category are copied. The provider is always overwritten. A never-saved row becomes PENDING, and a saved row keeps its status, files, feedback and timestamps. |
| ProviderCatalog.StatusRules | src/main/java/project/hamrosewa/service/ProviderServiceService.java:88-132 | A new service is PENDING whatever the form says. Editing a saved service never moves its status. A form of nulls changes only the provider. |
| ProviderCatalog.Approve | src/main/java/project/hamrosewa/service/ProviderServiceService.java:206-213 | APPROVED. The feedback is replaced only by a value that is not blank after trim, and nothing else changes. |
| ProviderCatalog.Reject | src/main/java/project/hamrosewa/service/ProviderServiceService.java:231-237 | REJECTED. The feedback is always overwritten, null included, and nothing else changes. |
| ProviderCatalog.ReviewDecisions | src/main/java/project/hamrosewa/service/ProviderServiceService.java:206-237 | Approving twice is approving once. A rejection after an approval is the same as a plain rejection. |
| ProviderCatalog.SaveExisting | src/main/java/project/hamrosewa/model/ProviderService.java:60-69 | Saving an unchanged row leaves it as it was. A changed row gets updatedAt set to the clock. |
| ProviderCatalog.FilePath | src/main/java/project/hamrosewa/service/ProviderServiceService.java:190-204 | A null or empty path is an error; any other path is read as given. |
| ProviderCatalog.WithoutService | src/main/java/project/hamrosewa/service/ProviderServiceService.java:139-173 | Exactly the reviews of other services remain, unchanged, and the review table stays valid. |
| ProviderCatalog.ProviderServiceService.CreateService | src/main/java/project/hamrosewa/service/ProviderServiceService.java:46-86 | An unknown provider, then a missing NOT NULL column, is an error with nothing saved. Otherwise a PENDING row is stamped and saved under the next id, and one admin gets SERVICE_PENDING unless the notice fails, which is swallowed. |
| ProviderCatalog.ProviderServiceService.UpdateService | src/main/java/project/hamrosewa/service/ProviderServiceService.java:88-120 | An unknown service, then an unknown provider, is an error. Otherwise the form and new files are applied and saved, and the status is unchanged. |
| ProviderCatalog.ProviderServiceService.ApproveService | src/main/java/project/hamrosewa/service/ProviderServiceService.java:206-229 | An unknown service is an error. A failing notice undoes the approval. Otherwise the row is approved and the provider gets SERVICE_APPROVED. |
| ProviderCatalog.ProviderServiceService.RejectService | src/main/java/project/hamrosewa/service/ProviderServiceService.java:231-254 | An unknown service is an error. A failing notice undoes the rejection. Otherwise the row is rejected and the provider gets SERVICE_REJECTED. |
| ProviderCatalog.ProviderServiceService.DeleteService | src/main/java/project/hamrosewa/service/ProviderServiceService.java:134-184 | An unknown service is an error. A failing notice undoes everything. So does a service that some booking references: the bookings' NOT NULL foreign key refuses the delete, and the transaction rolls back with ReferencedByBooking. No booked service ever leaves the catalog. Otherwise every review of the service and the service row are removed, and the provider is notified. |
| Reviews.HasReviewIff | src/main/java/project/hamrosewa/service/ReviewService.java:72 | existsByBookingId holds exactly when some review points at the booking. |
| Reviews.AtMostOneReviewPerBooking | src/main/java/project/hamrosewa/model/Review.java:29-32 | Under the unique BOOKING_ID column, a booking has at most one review. |
| Reviews.IntValue | src/main/java/project/hamrosewa/service/ReviewService.java:50 | Long.intValue gives a 32-bit value congruent to the input modulo 2^32, and is the identity on int range. |
| Reviews.CreateReviewCheck | src/main/java/project/hamrosewa/service/ReviewService.java:44-74 | The request passes exactly when all of these hold: the booking exists; the customer, looked up by intValue, exists and owns it; the service exists and is the booking's; the booking is COMPLETED; it has no review. Each failure is named and reported in exactly that order: when every earlier check passes, a missing booking, missing customer, foreign booking, missing service, service mismatch, unfinished booking or existing review gives its own error. |
| Reviews.SecondReviewRejected | src/main/java/project/hamrosewa/service/ReviewService.java:72-88 | Saving a review that passed keeps one review per booking and links the booking to exactly that review. Any later request for the same booking is rejected. |
| Reviews.EditReview | src/main/java/project/hamrosewa/service/ReviewService.java:135-147 | An unknown review, then a caller who is not its owner, is an error. On success only that review's rating and comment change. |
| Reviews.RemoveReview | src/main/java/project/hamrosewa/service/ReviewService.java:149-164 | An unknown review, then a caller who is not its owner (compared by intValue), is an error. On success exactly that review is gone, and its booking has no review left. |
| Reviews.ExistsByBookingId | src/main/java/project/hamrosewa/service/ReviewService.java:166-173 | An error iff the booking is unknown. Otherwise true iff the booking has a review. |
| Reviews.ReviewService.CreateReview | src/main/java/project/hamrosewa/service/ReviewService.java:44-100 | A failed gate changes nothing. Otherwise the review is saved under the next id as the booking's only review. The provider gets NEW_REVIEW; if that notice throws, the review stays saved and the caller gets the error. |
| Reviews.ReviewService.UpdateReview | src/main/java/project/hamrosewa/service/ReviewService.java:135-147 | The review table becomes EditReview's result, or is unchanged with its error. |
| Reviews.ReviewService.DeleteReview | src/main/java/project/hamrosewa/service/ReviewService.java:149-164 | The review table becomes RemoveReview's result, or is unchanged with its error. |
| OtpVerification.VerificationFailure | src/main/java/project/hamrosewa/service/OTPVerificationService.java:106-129 | The rethrown message is "OTP verification failed: " followed by verifyOTP's own message. |
| OtpVerification.Matching | src/main/java/project/hamrosewa/repository/OTPVerificationRepository.java:12 | The records matching an address and a code are among that address's unverified records. |
| OtpVerification.WithoutOpen | src/main/java/project/hamrosewa/service/OTPVerificationService.java:166-169 | Exactly the address's unverified records are gone, and every other record is kept unchanged. |
| OtpVerification.NewRecord | src/main/java/project/hamrosewa/service/OTPVerificationService.java:50-60 | A new record is unverified, belongs to the registration's address, and expires ten minutes after its creation. |
| OtpVerification.SendReplacesOpenRecord | src/main/java/project/hamrosewa/service/OTPVerificationService.java:34-68 | After a send, the store stays valid and the new record is the address's only unverified one. |
| OtpVerification.CheckRecord | src/main/java/project/hamrosewa/service/OTPVerificationService.java:140-146 | A found record passes iff it is not expired and has the requested user type. Expiry is reported first. |
| OtpVerification.ExpiryWindow | src/main/java/project/hamrosewa/model/OTPVerification.java:39-41 | A fresh code is good exactly until ten minutes after creation, inclusive. |
| OtpVerification.VerifiedOnce | src/main/java/project/hamrosewa/service/OTPVerificationService.java:148-151 | Once the record is marked verified, the same address and code match nothing, so a code verifies once. |
| OtpVerification.AtMostOneMatch | src/main/java/project/hamrosewa/service/OTPVerificationService.java:132-136 | In a valid store an (address, code) pair matches at most one record. |
| OtpVerification.GenerateOtp | src/main/java/project/hamrosewa/service/OTPVerificationService.java:155-164 | The code has exactly 6 characters, each a decimal digit. |
| OtpVerification.OtpService.SendOtp | src/main/java/project/hamrosewa/service/OTPVerificationService.java:34-68 | The address's open record is dropped. A fresh six-digit record is stored under the next id as the only open one, and the code is mailed to the address. |
| OtpVerification.OtpService.SendOtpForCustomerRegistration | src/main/java/project/hamrosewa/service/OTPVerificationService.java:34-68 | SendOtp with the customer's registration copy and the CUSTOMER type. |
| OtpVerification.OtpService.SendOtpForServiceProviderRegistration | src/main/java/project/hamrosewa/service/OTPVerificationService.java:70-104 | SendOtp with the provider's registration copy and the SERVICE_PROVIDER type. |
| OtpVerification.OtpService.VerifyOtp | src/main/java/project/hamrosewa/service/OTPVerificationService.java:131-152 | No open match is "Invalid OTP". Then expiry, then user type, each failure leaving the store unchanged. Success marks the record verified and returns its registration, after which the pair matches nothing. |
| OtpVerification.OtpService.VerifyRegistrationOtp | src/main/java/project/hamrosewa/service/OTPVerificationService.java:106-129 | Like VerifyOtp, with every failure prefixed "OTP verification failed: " and the store unchanged. Success returns the registration and marks the record verified, after which the address and code match nothing. |
| Notifications.TypeName | src/main/java/project/hamrosewa/service/NotificationService.java:46 | The lower-cased type name is non-empty and has no '-'. |
| Notifications.NatToString | src/main/java/project/hamrosewa/service/NotificationService.java:46 | The decimal form of a natural number is all digits, and has one digit exactly below 10. |
| Notifications.IntToString | src/main/java/project/hamrosewa/service/NotificationService.java:46 | The decimal form starts with '-' exactly for negative numbers. |
| Notifications.NatToStringInjective | src/main/java/project/hamrosewa/service/NotificationService.java:46 | Distinct natural numbers print differently. |
| Notifications.IntToStringInjective | src/main/java/project/hamrosewa/service/NotificationService.java:46 | Distinct ids print differently. |
| Notifications.DestinationInjective | src/main/java/project/hamrosewa/service/NotificationService.java:46 | Two recipients share a push destination only when they are the same (type, id). |
| Notifications.ForRecipient | src/main/java/project/hamrosewa/service/NotificationService.java:51-56 | Exactly that recipient's notifications, unchanged. |
| Notifications.UnreadFor | src/main/java/project/hamrosewa/service/NotificationService.java:58-63 | Exactly that recipient's unread notifications, unchanged. |
| Notifications.MarkRead | src/main/java/project/hamrosewa/model/Notification.java:56-59 | The notification is read and stamped with the clock, and nothing else changes. |
| Notifications.MarkAllRead | src/main/java/project/hamrosewa/service/NotificationService.java:73-82 | Every row is kept. Exactly that recipient's unread rows are marked read, and the others stay as they were. |
| Notifications.WithoutRecipient | src/main/java/project/hamrosewa/service/NotificationService.java:93-97 | Exactly the other recipients' notifications remain, unchanged. |
| Notifications.MarkAllReadClearsUnread | src/main/java/project/hamrosewa/service/NotificationService.java:73-86 | After markAllAsRead the recipient's unread count is 0. |
| Notifications.MarkAllReadKeepsOthers | src/main/java/project/hamrosewa/service/NotificationService.java:73-82 | markAllAsRead leaves every other recipient's unread list unchanged. |
| Notifications.MarkAllReadIdempotent | src/main/java/project/hamrosewa/service/NotificationService.java:73-82 | Marking all read a second time changes nothing. |
| Notifications.MarkReadTwice | src/main/java/project/hamrosewa/model/Notification.java:56-59 | markAsRead is idempotent on the flag; a second call only moves readAt to its own clock reading. |
| Notifications.WithoutRecipientEffect | src/main/java/project/hamrosewa/service/NotificationService.java:93-97 | After deleteAll the recipient has no notifications, and every other recipient keeps theirs. |
| Notifications.NotificationService.CreateNotification | src/main/java/project/hamrosewa/service/NotificationService.java:25-48 | Stores one unread notification with the given fields, stamped with the clock, under the next id. Returns the recipient's push destination. |
| Notifications.NotificationService.MarkAsRead | src/main/java/project/hamrosewa/service/NotificationService.java:65-71 | An unknown id changes nothing. A known one is marked read. |
| Notifications.NotificationService.MarkAllAsRead | src/main/java/project/hamrosewa/service/NotificationService.java:73-82 | The loop leaves the table as MarkAllRead describes. |
| Notifications.NotificationService.DeleteNotification | src/main/java/project/hamrosewa/service/NotificationService.java:88-91 | The row with that id is gone; an unknown id changes nothing. |
| Notifications.NotificationService.DeleteAllNotifications | src/main/java/project/hamrosewa/service/NotificationService.java:93-97 | The table becomes WithoutRecipient's result. |
| Validation.Any | src/main/java/project/hamrosewa/util/ValidationUtil.java:16 | A scan finds a character of the class iff one occurs. |
| Validation.IndexOf | src/main/java/project/hamrosewa/util/ValidationUtil.java:14 | The first position of the character, or the length when it does not occur. |
| Validation.MatchesEmail | src/main/java/project/hamrosewa/util/ValidationUtil.java:14 | The checker accepts exactly the strings of the email pattern: a non-empty local part over its class, '@', and a non-empty domain over [a-zA-Z0-9.-]. |
| Validation.MatchesPassword | src/main/java/project/hamrosewa/util/ValidationUtil.java:16 | The checker accepts exactly the passwords of at least 8 characters with a digit, a lower-case letter, an upper-case letter and one of @#$%^&+=!, and no whitespace or line terminator. |
| Validation.MatchesPhone | src/main/java/project/hamrosewa/util/ValidationUtil.java:18 | The checker accepts exactly an optional "+977" or "0", then 9, a digit from 6 to 9, and 8 more digits. |
| Validation.EmailErrorsMeaning | src/main/java/project/hamrosewa/util/ValidationUtil.java:22-31 | Null or empty gives only "Email is required". Otherwise "Invalid email format" is given iff the pattern fails. |
| Validation.PasswordErrorsMeaning | src/main/java/project/hamrosewa/util/ValidationUtil.java:33-46 | Null or empty gives only "Password is required". A non-empty password shorter than 8 UTF-16 units, as String.length() counts, gets both the length and the complexity message. One of 8 units or more gets the complexity message exactly when the pattern fails, and nothing else. Overall there is no message iff the pattern matches. |
| Validation.Utf16Length | src/main/java/project/hamrosewa/util/ValidationUtil.java:39 | String.length() lies between the number of characters and twice that, and equals it when every character is in the Basic Multilingual Plane. |
| Validation.AstralPasswordExample | src/main/java/project/hamrosewa/util/ValidationUtil.java:33-46 | "Aa1!" followed by an emoji and "xy" is 7 characters but 8 UTF-16 units. It gets only the complexity message: the length test passes and the pattern's `.{8,}` fails. |
| Validation.PhoneErrorsMeaning | src/main/java/project/hamrosewa/util/ValidationUtil.java:49-58 | Null or empty gives only "Phone number is required". Otherwise the format message is given iff the pattern fails. |
| Validation.UsernameErrorsMeaning | src/main/java/project/hamrosewa/util/ValidationUtil.java:60-69 | Null or empty gives only "Username is required". Otherwise there is no message iff the name has 4 to 20 characters from [a-zA-Z0-9._]. |
| Validation.NotEmptyErrorsMeaning | src/main/java/project/hamrosewa/util/ValidationUtil.java:72-76 | "<field> is required" is given exactly when the value is null or only characters trim() strips. |
| Validation.AccountErrorsEmptyIff | src/main/java/project/hamrosewa/util/ValidationUtil.java:77-89 | The five shared validators report nothing iff each field is acceptable to its pattern. |
| Validation.CustomerErrorsEmptyIff | src/main/java/project/hamrosewa/util/ValidationUtil.java:77-90 | validateCustomer accepts exactly when every field is valid and the full name is not blank. |
| Validation.ProviderErrorsEmptyIff | src/main/java/project/hamrosewa/util/ValidationUtil.java:92-105 | validateServiceProvider accepts exactly when every field is valid and the business name is not blank. |
| Validation.PhoneExamples | src/main/java/project/hamrosewa/util/ValidationUtil.java:18 | The documented samples 9801234567 and +9779801234567 pass, and so does 09801234567. A second digit below 6 or an extra digit fails. |
| Validation.ValidateEmail | src/main/java/project/hamrosewa/util/ValidationUtil.java:22-31 | Appends exactly the email messages to the list and keeps what was there. |
| Validation.ValidatePassword | src/main/java/project/hamrosewa/util/ValidationUtil.java:33-46 | Appends exactly the password messages to the list, with the length test in UTF-16 units, and keeps what was there. |
| Validation.ValidatePhoneNumber | src/main/java/project/hamrosewa/util/ValidationUtil.java:49-58 | Appends exactly the phone messages to the list and keeps what was there. |
| Validation.ValidateUsername | src/main/java/project/hamrosewa/util/ValidationUtil.java:60-69 | Appends exactly the username messages to the list and keeps what was there. |
| Validation.ValidateNotEmpty | src/main/java/project/hamrosewa/util/ValidationUtil.java:72-76 | Appends the field's message iff the value is null or blank. |
| Validation.ValidateAccount | src/main/java/project/hamrosewa/util/ValidationUtil.java:80-85 | Appends the five shared validators' messages in their order. |
| Validation.ValidateCustomer | src/main/java/project/hamrosewa/util/ValidationUtil.java:77-90 | Passes iff the collected list (username, email, password, phone, address, full name) is empty, and otherwise fails with that list. |
| Validation.ValidateServiceProvider | src/main/java/project/hamrosewa/util/ValidationUtil.java:92-105 | Passes iff the collected list ending with the business name is empty, and otherwise fails with that list. |
| Text.TrimStart | src/main/java/project/hamrosewa/util/ValidationUtil.java:73 | A suffix of the input that starts with a character trim() keeps, after only trimmable characters. |
| Text.TrimEnd | src/main/java/project/hamrosewa/util/ValidationUtil.java:73 | A prefix of the input that ends with a character trim() keeps, before only trimmable characters. |
| Text.Trim | src/main/java/project/hamrosewa/util/ValidationUtil.java:73 | trim() leaves no trimmable character at either end. |
| Text.BlankTrimsAway | src/main/java/project/hamrosewa/util/ValidationUtil.java:73 | A blank string trims to nothing. |
| Text.TrimEmptyIffBlank | src/main/java/project/hamrosewa/util/ValidationUtil.java:73 | trim() is empty exactly for the strings made only of characters up to U+0020. |
| TokenBlacklist.Listed | src/main/java/project/hamrosewa/service/TokenBlackListService.java:19-24 | The token is listed. An already-listed token keeps its expiry, a new one gets the given expiry, and every other entry is unchanged. |
| TokenBlacklist.Unexpired | src/main/java/project/hamrosewa/service/TokenBlackListService.java:30-35 | An entry goes exactly when its expiry is strictly before the clock, and the others stay unchanged. |
| TokenBlacklist.ListedUntilExpired | src/main/java/project/hamrosewa/service/TokenBlackListService.java:19-35 | A listed token survives a sweep iff its expiry is not before the sweep's clock. Sweeping twice at one instant is sweeping once, and listing twice is listing once. |
| TokenBlacklist.LaterSweepKeepsLess | src/main/java/project/hamrosewa/service/TokenBlackListService.java:30-35 | A later sweep keeps no more tokens, and an earlier sweep followed by a later one is the later one. |
| TokenBlacklist.TokenBlackListService.BlacklistToken | src/main/java/project/hamrosewa/service/TokenBlackListService.java:19-24 | The map becomes Listed's result. |
| TokenBlacklist.TokenBlackListService.CleanupExpiredTokens | src/main/java/project/hamrosewa/service/TokenBlackListService.java:30-35 | The map becomes Unexpired's result. |
| Roles.Named | src/main/java/project/hamrosewa/repository/RoleRepository.java:11 | Exactly the roles with that name. |
| Roles.FindByName | src/main/java/project/hamrosewa/repository/RoleRepository.java:11 | No role iff no row has the name. A single answer is a row with that name. |
| Roles.UniqueNamesFindOne | src/main/java/project/hamrosewa/service/RoleService.java:21-26 | With distinct names the single-result lookup never meets two rows. |
| Roles.UpdateCanDuplicateName | src/main/java/project/hamrosewa/service/RoleService.java:34-38 | updateRole does not check names: a rename onto an existing name leaves two rows the lookup cannot tell apart. |
| Roles.RoleService.CreateRole | src/main/java/project/hamrosewa/service/RoleService.java:21-26 | Inserts a role under a fresh id iff no role has the name, and otherwise fails with nothing changed. Keeps names distinct. |
| Roles.RoleService.FindRole | src/main/java/project/hamrosewa/service/RoleService.java:28-32 | The role with that name, and RoleNotFound iff there is none. Never fails when names are distinct and one matches. |
| Roles.RoleService.UpdateRole | src/main/java/project/hamrosewa/service/RoleService.java:34-38 | When a row has the role's id, that row is replaced and every other row kept. Otherwise an error with nothing changed. |
| Roles.RoleService.GetAllRoles | src/main/java/project/hamrosewa/service/RoleService.java:40-42 | Every stored role. |
| Users.TakenByAnyoneIsTakenByOther | src/main/java/project/hamrosewa/service/ServiceProviderService.java:83-105 | For a value other than the user's own, "held by anyone" (the provider update) and "held by another user" (customer and admin updates) agree. |
| Users.UpdateKeepsUnique | src/main/java/project/hamrosewa/model/User.java:16-20 | Changing a user's username, email and phone to values no other user holds keeps all three unique. Phone uniqueness is not a column constraint; every registration and update path enforces it. |
| Users.InsertKeepsUnique | src/main/java/project/hamrosewa/model/User.java:16-20 | Adding a user whose username, email and phone nobody holds keeps all three unique. |
| Users.UserRepository.AdminIds | src/main/java/project/hamrosewa/service/CustomerService.java:86 | Exactly the ids of the admin rows. |
| Users.UserRepository.Insert | src/main/java/project/hamrosewa/service/CustomerService.java:83 | A new user is saved under the next id, and the table stays unique. |
| Users.RegistrationCheck | src/main/java/project/hamrosewa/service/CustomerService.java:52-65 | Registration passes iff username, email and phone are all unused. Otherwise the error is the first used one in that order. |
| Users.RoleFor | src/main/java/project/hamrosewa/service/CustomerService.java:80-81 | A missing role leaves the user without one, exactly when no row has the name. An ambiguous name is an error, which distinct names rule out. |
| Money.RoundHalfUp2 | src/main/java/project/hamrosewa/service/AdminService.java:216 | setScale(2, HALF_UP) gives a whole number of cents within half a cent, with a tie going away from zero. |
| Money.RoundCentsIdentity | src/main/java/project/hamrosewa/service/AdminService.java:216 | An amount already in whole cents is unchanged. |
| Money.RoundSymmetric | src/main/java/project/hamrosewa/service/AdminService.java:216 | HALF_UP is symmetric around zero. |
| Money.RoundMonotone | src/main/java/project/hamrosewa/service/AdminService.java:216 | Rounding non-negative amounts is monotone. |
| Money.RoundTies | src/main/java/project/hamrosewa/service/AdminService.java:216 | 0.125 becomes 0.13, -0.125 becomes -0.13, and 0.135 becomes 0.14. HALF_UP is neither HALF_EVEN nor truncation. |

## Left out

- Role.java and UserType.java are not part of this model. A role is taken to be an id and a name, and a user type one of customer, service provider and admin.
- The list queries are left out: getBookingsByCustomer, getBookingsByProvider, getBookingsByService, getReviewById, getReviewsBy*, getServicesByStatus, getAllServices, getServiceById and getServiceProviderInfo. They are repository reads with no rule of their own.
- Notifications.NotificationService.GetUserNotifications, GetUnreadNotifications and GetUnreadCount are read-only functions over ForRecipient and UnreadFor, whose contracts state the query. They carry no contract of their own.
- Returned lists are unordered: tables are maps, so the order of a repository's findAll and sorting by date are not modelled. Which admin the catalog notifies first is left open.
- Dashboard metrics, calculateAverageRating and every other `double` average are left out, because they are floating point.
- updateAdminPhoto, updateCustomerPhoto, updateServiceProviderPhoto, getAdminInfo, getAdminProfileImage and getCustomerProfileImage are left out. They are file I/O around one field.
- File storage is left out. An uploaded image or PDF is modelled as the stored file name, and reading, deleting and the MIME checks are not modelled.
- JWT parsing is left out. The expiry that blacklistToken reads from the token is a parameter.
- E-mail, WebSocket delivery and the message texts are left out. A side effect is an entry in the ghost event log, and only the push destination string is computed.
- sendSystemNotificationToUserType is left out: it broadcasts to a topic and stores nothing per recipient.
- UserService is left out: it is a legacy service inconsistent with the single-role User entity.
- Controllers other than LoyaltyController are left out. They do request mapping and authentication.
- PasswordEncoder is modelled as an injective tag on the raw text.
- `java.util.Random` is a nondeterministic digit choice.
- ObjectMapper is modelled as storing the registration record itself.
- Concurrency is left out: ConcurrentHashMap, races on the tracker row and on a booking's status. Every operation runs alone.
- Spring's rollback-only marking is not modelled. When an inner `@Transactional` call fails and the caller catches the failure, the model keeps the caller's method-level behaviour, as the code reads.
- The `booking.setReview` saves at ReviewService.java:87-88 and 158-161 are not modelled as a column. The booking's review is derived from the review table, whose BOOKING_ID is unique.
- Foreign keys are modelled only where a request depends on them. deleteService receives the ids of the booked services and fails for one of them. Other foreign keys are not modelled.
- Integer widths are not modelled, except where the code converts. In ReviewService, `Long.intValue` is modelled by Reviews.IntValue, a 32-bit wrap-around. In createBooking, `Math.toIntExact` on the customer id throws ArithmeticException outside the int range. The model reports that as Bookings.CustomerIdOutOfRange, not as an unknown customer. Ids and counts are otherwise unbounded.
- LoyaltyProgress.LoyaltyController.FixLoyaltyTracking: a failing discount notice inside the replay loop is not modelled (the ledger is called as if notices succeed), and the timestamps of rebuilt tracker rows are not stated.
- ProviderCatalog.ProviderServiceService.CreateService: states that some admin gets the SERVICE_PENDING notice, not which one, because findAll's order is not modelled.
- Roles.RoleService.CreateRole: takes the new role's name and assigns the next id. A caller-supplied id on the saved Role, which JPA would treat as a merge, is not modelled.
- Bookings.ServiceBookingService.UpdateBookingStatus: requires that a stored booking's service is still in the catalog. The foreign key guarantees this, and ProviderCatalog.ProviderServiceService.DeleteService never removes a booked service.
- Bookings.ServiceBookingService.CancelBooking: carries the same catalog requirement as UpdateBookingStatus, for the same reason.

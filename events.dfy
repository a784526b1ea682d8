/** The kinds shared by every service that notifies someone, and the log that
    records notification and e-mail side effects. Delivery itself (WebSocket
    push, SMTP) is outside the model: a side effect is an entry in the log. */
module Events {

  /** model.UserType: who a notification is addressed to. */
  datatype UserType = Customer | ServiceProvider | Admin

  /** Notification.NotificationType. */
  datatype NotificationType =
    | BookingCreated | BookingConfirmed | BookingCompleted | BookingCancelled
    | ServiceApproved | ServiceRejected | NewReview | ReviewUpdated | ReviewDeleted
    | NewMessage | AccountVerified | AccountCreated | ServicePending | LoyaltyDiscount

  /** The e-mails the services hand to the (asynchronous) e-mail service. */
  datatype EmailKind = BookingConfirmationEmail | BookingCompletionEmail | OtpEmail

  datatype Event =
    | Notified(recipientId: int, recipientType: UserType, kind: NotificationType)
    | EmailedUser(email: EmailKind, userId: int)
    | EmailedAddress(email: EmailKind, address: string)

  /** The ghost record of side effects a request performed, in order. */
  class EventLog {
    ghost var events: seq<Event>

    constructor ()
      ensures events == []
    {
      events := [];
    }
  }
}

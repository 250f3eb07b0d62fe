/**
 * What a route handler does with a request: send a JSON response
 * (status, body and cookies), forward an error to the error-handling
 * middleware with `next(error)`, or fail inside a store call it does not
 * guard, in which case no response is defined.
 */
module Response {
  import opened Wrappers
  import opened Database
  import opened ErrorHandler
  import opened NotificationTypes

  datatype CookieOptions = CookieOptions(maxAge: int, httpOnly: bool, secure: bool, sameSite: string)

  datatype Cookie = Cookie(name: string, value: string, options: CookieOptions)

  datatype Body =
    | Message(message: string)
    | UserUpdated(message: string, user: User)
    | Notifications(notifications: Option<seq<NotificationView>>)

  datatype Outcome =
    | Sent(status: int, body: Body, cookies: seq<Cookie>)
    | Forwarded(error: Thrown)
    | StoreFailure
}

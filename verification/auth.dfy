/** What the client pages read from the session hook, the three-way gate they
    all apply before rendering, and the side effects their React effects
    perform, written as values so that their order can be stated. */
module Auth {
  import opened Common
  import AuthModalContext

  datatype SessionStatus = Loading | Authenticated | Unauthenticated

  function StatusName(s: SessionStatus): string {
    match s
    case Loading => "loading"
    case Authenticated => "authenticated"
    case Unauthenticated => "unauthenticated"
  }

  datatype SessionUser = SessionUser(name: Option<string>, email: Option<string>,
                                     image: Option<string>, accountType: Option<string>)

  /** A signed-in session; its `user` may be missing. */
  datatype Session = Session(user: Option<SessionUser>)

  /** `session.user?.accountType || 'general'`. */
  function AccountTypeOf(session: Session): (a: string)
    ensures session.user.Some? && Truthy(session.user.value.accountType) ==>
              a == session.user.value.accountType.value
    ensures !(session.user.Some? && Truthy(session.user.value.accountType)) ==> a == "general"
    ensures a != ""
  {
    match session.user
    case None => "general"
    case Some(u) => Or(u.accountType, "general")
  }

  /** `session.user?.email`: missing when the user is. */
  function UserEmail(session: Session): Option<string> {
    if session.user.Some? then session.user.value.email else None
  }

  /** `session.user?.name`: missing when the user is. */
  function UserName(session: Session): Option<string> {
    if session.user.Some? then session.user.value.name else None
  }

  /** The three ways a protected page can render. */
  datatype View<T> = Spinner | Nothing | Content(content: T)

  /** The gate every protected page applies: a spinner while the session
      loads, nothing without a session, the page otherwise. */
  function Gate<T>(status: SessionStatus, session: Option<Session>, content: T): (v: View<T>)
    ensures v.Spinner? <==> status == Loading
    ensures v.Nothing? <==> status != Loading && session.None?
    ensures v.Content? <==> status != Loading && session.Some?
    ensures v.Content? ==> v.content == content
  {
    if status == Loading then Spinner
    else if session.None? then Nothing
    else Content(content)
  }

  /** A side effect of a React effect or event handler. */
  datatype Effect =
    | LogEnvironment
    | LogRouting(event: string, path: string, sessionStatus: Option<string>, data: Option<Object>)
    | OpenModal(t: AuthModalContext.ModalType)
    | Push(path: string)
    | CallOnClose
    | CloseModal
}

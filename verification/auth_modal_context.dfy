/** The authentication modal's shared state: whether it is open, which panel
    it shows and which account type the visitor picked. Only `openModal`,
    `closeModal` and `setAccountType` change it. */
module AuthModalContext {
  import opened Common

  datatype ModalType = Login | Signup | AccountTypeChoice

  datatype AccountType = General | Company

  /** The account type as the string the app passes around. */
  function AccountTypeName(a: AccountType): string {
    match a
    case General => "general"
    case Company => "company"
  }

  datatype ModalState = ModalState(isOpen: bool, modalType: Option<ModalType>, accountType: AccountType)

  /** Closed, no panel, general account. */
  const Initial := ModalState(false, None, General)

  /** The three operations the context hands out. */
  datatype ModalOp = OpenModal(t: ModalType) | CloseModal | SetAccountType(a: AccountType)

  function Step(s: ModalState, op: ModalOp): (s': ModalState)
    ensures op.OpenModal? ==> s'.isOpen && s'.modalType == Some(op.t)
    ensures op.CloseModal? ==> !s'.isOpen && s'.modalType == None
    // Opening and closing never touch the account type ...
    ensures !op.SetAccountType? ==> s'.accountType == s.accountType
    // ... and choosing an account type touches nothing else.
    ensures op.SetAccountType? ==> s' == s.(accountType := op.a)
  {
    match op
    case OpenModal(t) => s.(modalType := Some(t), isOpen := true)
    case CloseModal => s.(isOpen := false, modalType := None)
    case SetAccountType(a) => s.(accountType := a)
  }

  /** The state after applying `ops` in order to the initial state. */
  function Run(ops: seq<ModalOp>): ModalState
    decreases |ops|
  {
    if ops == [] then Initial else Step(Run(ops[..|ops| - 1]), ops[|ops| - 1])
  }

  /** The modal is open exactly when a panel is chosen. */
  predicate Consistent(s: ModalState) {
    s.isOpen <==> s.modalType.Some?
  }

  lemma {:induction false} ReachableStatesAreConsistent(ops: seq<ModalOp>)
    ensures Consistent(Run(ops))
    decreases |ops|
  {
    if ops != [] {
      ReachableStatesAreConsistent(ops[..|ops| - 1]);
    }
  }

  /** The account type chosen last, or the general default when none was chosen. */
  function LastAccountChoice(ops: seq<ModalOp>): AccountType
    decreases |ops|
  {
    if ops == [] then General
    else if ops[|ops| - 1].SetAccountType? then ops[|ops| - 1].a
    else LastAccountChoice(ops[..|ops| - 1])
  }

  lemma {:induction false} AccountTypeIsLastChoice(ops: seq<ModalOp>)
    ensures Run(ops).accountType == LastAccountChoice(ops)
    decreases |ops|
  {
    if ops != [] {
      AccountTypeIsLastChoice(ops[..|ops| - 1]);
    }
  }

  /** The provider component's three state cells. `history` records the
      operations applied so far. */
  class AuthModalProvider {
    var isOpen: bool
    var modalType: Option<ModalType>
    var accountType: AccountType
    ghost var history: seq<ModalOp>

    function State(): ModalState
      reads this
    {
      ModalState(isOpen, modalType, accountType)
    }

    ghost predicate Valid()
      reads this
    {
      State() == Run(history)
    }

    constructor ()
      ensures Valid() && history == [] && State() == Initial
    {
      isOpen := false;
      modalType := None;
      accountType := General;
      history := [];
    }

    method OpenModal(t: ModalType)
      requires Valid()
      modifies this
      ensures Valid() && history == old(history) + [ModalOp.OpenModal(t)]
      ensures isOpen && modalType == Some(t) && accountType == old(accountType)
    {
      modalType := Some(t);
      isOpen := true;
      history := history + [ModalOp.OpenModal(t)];
    }

    method CloseModal()
      requires Valid()
      modifies this
      ensures Valid() && history == old(history) + [ModalOp.CloseModal]
      ensures !isOpen && modalType == None && accountType == old(accountType)
    {
      isOpen := false;
      modalType := None;
      history := history + [ModalOp.CloseModal];
    }

    method SetAccountType(a: AccountType)
      requires Valid()
      modifies this
      ensures Valid() && history == old(history) + [ModalOp.SetAccountType(a)]
      ensures accountType == a && isOpen == old(isOpen) && modalType == old(modalType)
    {
      accountType := a;
      history := history + [ModalOp.SetAccountType(a)];
    }

    /** Whatever the provider has been through, it is open exactly when a
        panel is chosen. */
    lemma OpenIffPanelChosen()
      requires Valid()
      ensures isOpen <==> modalType.Some?
    {
      ReachableStatesAreConsistent(history);
    }
  }

  const OutsideProviderError := "useAuthModal must be used within an AuthModalProvider"

  /** `useAuthModal()`: the nearest provider, or the error it throws without one. */
  function UseAuthModal(context: Option<AuthModalProvider>): (r: Result<AuthModalProvider>)
    ensures context.None? <==> r.Failure?
    ensures r.Failure? ==> r.error == OutsideProviderError
    ensures r.Success? ==> r.value == context.value
  {
    match context
    case None => Failure(OutsideProviderError)
    case Some(p) => Success(p)
  }
}

/**
 * The interactive prompts and the task dispatcher.  The prompts' validation
 * rules, bounds and choice lists are modelled exactly; the workflows a task
 * runs against the portal are not, and their outcome is a parameter.  The
 * session file is modelled as an optional session bundle: present after a
 * successful login, gone after a successful logout.
 */
module Inquirer {
  import opened Types
  import opened DigitPattern
  import opened Responses
  import opened Dto

  // ---------------------------------------------------------------------------
  // Input validation

  /** The verdict of a prompt's validator: accept the answer, or show a hint and ask again. */
  datatype Validation = Accept | Reject(message: string)

  const PhoneNumberPattern := Pattern(10, 13)
  const PinPattern := Pattern(6, 6)
  const NationalityIdPattern := Pattern(16, 16)

  const PhoneNumberHint := "Please enter your phone number without country code prefixes such as +62 and be between 10 and 13 digits long."
  const PinHint := "Please enter your PIN as a 6-digit number."
  const NationalityIdHint := "Please enter customer nationality ID as a 16-digit number."

  /** The validator of the phone-number prompt. */
  function ValidatePhoneNumber(value: string): (r: Validation)
    ensures r == Accept <==> 10 <= |value| <= 13 && AllDigits(value)
    ensures r != Accept ==> r == Reject(PhoneNumberHint)
  {
    MatchesFromSpec(value, PhoneNumberPattern.min, PhoneNumberPattern.max);
    if Test(PhoneNumberPattern, value) then Accept else Reject(PhoneNumberHint)
  }

  /** The validator of the PIN prompt. */
  function ValidatePin(value: string): (r: Validation)
    ensures r == Accept <==> |value| == 6 && AllDigits(value)
    ensures r != Accept ==> r == Reject(PinHint)
  {
    MatchesFromSpec(value, PinPattern.min, PinPattern.max);
    if Test(PinPattern, value) then Accept else Reject(PinHint)
  }

  /** The validator of the national-ID prompt. */
  function ValidateNationalityId(value: string): (r: Validation)
    ensures r == Accept <==> |value| == 16 && AllDigits(value)
    ensures r != Accept ==> r == Reject(NationalityIdHint)
  {
    MatchesFromSpec(value, NationalityIdPattern.min, NationalityIdPattern.max);
    if Test(NationalityIdPattern, value) then Accept else Reject(NationalityIdHint)
  }

  // ---------------------------------------------------------------------------
  // Order quantity and customer type

  const OrderQuantityMin := 1
  const OrderQuantityMax := 20
  const OrderQuantityDefault := 1

  /** What a number prompt does with one answer: take a value, or ask again. */
  datatype Answer<+T> = Answered(value: T) | AskAgain

  /**
   * The order-quantity prompt given the number typed, or `None` when the
   * answer is left empty and the default applies.
   */
  function AskForOrderQuantity(typed: Option<int>): (r: Answer<int>)
    ensures r.Answered? <==> typed.None? || OrderQuantityMin <= typed.value <= OrderQuantityMax
    ensures r.Answered? ==> OrderQuantityMin <= r.value <= OrderQuantityMax
    ensures typed.None? ==> r == Answered(OrderQuantityDefault)
    ensures typed.Some? && r.Answered? ==> r.value == typed.value
  {
    match typed
    case None => Answered(OrderQuantityDefault)
    case Some(q) => if OrderQuantityMin <= q <= OrderQuantityMax then Answered(q) else AskAgain
  }

  /**
   * The prompt's bounds do not keep an order within the customer's quota:
   * 15 passes the prompt, and the order transform then leaves a quota of 10
   * at -5.  Only quantities of 11 to 20 can do this against a quota of 10.
   */
  lemma OrderQuotaUnchecked(response: TransactionResponse, customer: Customer)
    requires customer.quota == 10
    ensures AskForOrderQuantity(Some(15)) == Answered(15)
    ensures OrderDto(response, customer, 15).customer.quota == -5
    ensures forall q :: AskForOrderQuantity(Some(q)) == Answered(q) && OrderDto(response, customer, q).customer.quota < 0 <==> 11 <= q <= 20
  {
  }

  const CustomerTypeChoices: seq<CustomerType> := ["Rumah Tangga", "Usaha Mikro"]
  const DefaultCustomerType: CustomerType := "Rumah Tangga"

  /**
   * The customer-type prompt given the position of the choice picked, or
   * `None` when the pre-selected default is taken.
   */
  function AskForCustomerType(picked: Option<nat>): (t: CustomerType)
    requires picked.Some? ==> picked.value < |CustomerTypeChoices|
    ensures t == "Rumah Tangga" || t == "Usaha Mikro"
    ensures picked.None? ==> t == "Rumah Tangga"
    ensures picked.Some? ==> t == CustomerTypeChoices[picked.value]
  {
    match picked
    case None => DefaultCustomerType
    case Some(i) => CustomerTypeChoices[i]
  }

  /** The two choices are distinct, and the default is the first. */
  lemma CustomerTypeChoiceSet()
    ensures |CustomerTypeChoices| == 2 && CustomerTypeChoices[0] != CustomerTypeChoices[1]
    ensures forall t :: t in CustomerTypeChoices <==> t == "Rumah Tangga" || t == "Usaha Mikro"
    ensures DefaultCustomerType == CustomerTypeChoices[0]
  {
  }

  // ---------------------------------------------------------------------------
  // Tasks

  const Login := "LOGIN"
  const Logout := "LOGOUT"
  const GetProfile := "GET_PROFILE"
  const GetProduct := "GET_PRODUCT"
  const VerifyCustomer := "VERIFY_CUSTOMER"
  const AddOrder := "ADD_ORDER"
  const Exit := "EXIT"

  /** The values the task menu offers, in menu order. */
  const TaskChoices: seq<string> := [Login, Logout, GetProfile, GetProduct, VerifyCustomer, AddOrder, Exit]

  /** The tasks that read the session file before calling the portal. */
  const SessionTasks: set<string> := {Logout, GetProfile, GetProduct, VerifyCustomer, AddOrder}

  /** Whether the task loop goes on after a task returns. */
  predicate KeepsRunning(task: string)
  {
    task in TaskChoices && task != Exit
  }

  /**
   * A workflow's result: a domain value, an `Error` value carrying its
   * message, or an exception the workflow let escape.
   */
  datatype Outcome<+T> = Success(value: T) | Failure(message: string) | Raised

  /**
   * What one task did: it returned whether to keep running and left the
   * session file as given; or it threw, because it had to read the session
   * file and there was none, or because its workflow threw.
   */
  datatype TaskResult = Returned(keepRunning: bool, session: Option<Auth>) | Threw

  /** The outcome each workflow would have, should the task call it. */
  datatype Replies = Replies(
    login: Outcome<Auth>,
    logout: Outcome<()>,
    profile: Outcome<Profile>,
    product: Outcome<Product>,
    customer: Outcome<Customer>,
    order: Outcome<Order>)

  /** Whether the workflow that `task` calls throws, according to `replies`. */
  predicate WorkflowRaises(task: string, replies: Replies)
  {
    || (task == Login && replies.login.Raised?)
    || (task == Logout && replies.logout.Raised?)
    || (task == GetProfile && replies.profile.Raised?)
    || (task == GetProduct && replies.product.Raised?)
    || (task == VerifyCustomer && replies.customer.Raised?)
    || (task == AddOrder && replies.order.Raised?)
  }

  /**
   * Logging in stores the new session on success and leaves the file alone
   * on an error value; an exception from the workflow escapes.
   */
  function LoginTask(session: Option<Auth>, outcome: Outcome<Auth>): (r: TaskResult)
    ensures r.Threw? <==> outcome.Raised?
    ensures r.Returned? ==> r.keepRunning
    ensures outcome.Success? ==> r == Returned(true, Some(outcome.value))
    ensures outcome.Failure? ==> r == Returned(true, session)
  {
    match outcome
    case Raised => Threw
    case Failure(_) => Returned(true, session)
    case Success(auth) => Returned(true, Some(auth))
  }

  /** Logging out deletes the session file on success only. */
  function LogoutTask(session: Option<Auth>, outcome: Outcome<()>): (r: TaskResult)
    ensures r.Threw? <==> session.None? || outcome.Raised?
    ensures r.Returned? ==> r.keepRunning
    ensures r.Returned? && outcome.Success? ==> r.session.None?
    ensures r.Returned? && outcome.Failure? ==> r.session == session
  {
    match session
    case None => Threw
    case Some(_) =>
      match outcome
      case Raised => Threw
      case Failure(_) => Returned(true, session)
      case Success(_) => Returned(true, None)
  }

  /**
   * A task that reads the session file, calls one workflow and only reports
   * its outcome: the four reporting tasks below share this behaviour.
   */
  function ReportingTask<T>(session: Option<Auth>, outcome: Outcome<T>): (r: TaskResult)
    ensures r.Threw? <==> session.None? || outcome.Raised?
    ensures r.Returned? ==> r.keepRunning && r.session == session
  {
    match session
    case None => Threw
    case Some(_) =>
      match outcome
      case Raised => Threw
      case Failure(_) => Returned(true, session)
      case Success(_) => Returned(true, session)
  }

  function GetProfileTask(session: Option<Auth>, outcome: Outcome<Profile>): (r: TaskResult)
    ensures r.Threw? <==> session.None? || outcome.Raised?
    ensures r.Returned? ==> r.keepRunning && r.session == session
  {
    ReportingTask(session, outcome)
  }

  function GetProductTask(session: Option<Auth>, outcome: Outcome<Product>): (r: TaskResult)
    ensures r.Threw? <==> session.None? || outcome.Raised?
    ensures r.Returned? ==> r.keepRunning && r.session == session
  {
    ReportingTask(session, outcome)
  }

  function VerifyCustomerTask(session: Option<Auth>, outcome: Outcome<Customer>): (r: TaskResult)
    ensures r.Threw? <==> session.None? || outcome.Raised?
    ensures r.Returned? ==> r.keepRunning && r.session == session
  {
    ReportingTask(session, outcome)
  }

  function AddOrderTask(session: Option<Auth>, outcome: Outcome<Order>): (r: TaskResult)
    ensures r.Threw? <==> session.None? || outcome.Raised?
    ensures r.Returned? ==> r.keepRunning && r.session == session
  {
    ReportingTask(session, outcome)
  }

  /** Exiting stops the loop and touches nothing. */
  function ExitTask(session: Option<Auth>): (r: TaskResult)
    ensures r.Returned? && !r.keepRunning && r.session == session
  {
    Returned(false, session)
  }

  /**
   * Dispatch on the selected task.  Every task but `EXIT` that returns keeps
   * the loop running, whether its workflow succeeded or failed; `EXIT` and
   * any value outside the menu stop it.  A task throws when it needs the
   * missing session file or when its workflow throws.
   */
  function ProcessTask(task: string, session: Option<Auth>, replies: Replies): (r: TaskResult)
    ensures r.Returned? ==> (r.keepRunning <==> KeepsRunning(task))
    ensures r.Threw? <==> (task in SessionTasks && session.None?) || WorkflowRaises(task, replies)
    ensures task !in TaskChoices ==> r == Returned(false, session)
    ensures r.Returned? && task != Login && task != Logout ==> r.session == session
  {
    if task == Login then LoginTask(session, replies.login)
    else if task == Logout then LogoutTask(session, replies.logout)
    else if task == GetProfile then GetProfileTask(session, replies.profile)
    else if task == GetProduct then GetProductTask(session, replies.product)
    else if task == VerifyCustomer then VerifyCustomerTask(session, replies.customer)
    else if task == AddOrder then AddOrderTask(session, replies.order)
    else if task == Exit then ExitTask(session)
    else Returned(false, session)
  }
}

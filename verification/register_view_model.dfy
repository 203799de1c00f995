/** The registration screen's state holder: six field setters, the register
    action with its local check, the one-shot navigation signal carrying the
    new student's id, and the reset. The register use case is a parameter of
    the action. */
module RegisterViewModel {
  import opened Optional
  import opened Resources
  import opened Domain
  import opened KotlinText

  const INCOMPLETE_MESSAGE: string := "Por favor, completa todos los campos."
  const UNKNOWN_MESSAGE: string := "Error desconocido al registrarse."

  datatype RegisterUiState = RegisterUiState(
    fullName: string,
    email: string,
    password: string,
    department: string,
    municipality: string,
    grade: string,
    isLoading: bool,
    errorMessage: Option<string>,
    isRegisterSuccessful: bool)

  const DEFAULT_UI_STATE: RegisterUiState :=
    RegisterUiState("", "", "", "", "", "", false, None, false)

  /** The published form state and the navigation signal (null when there is
      nothing to navigate to). */
  datatype RegisterVm = RegisterVm(uiState: RegisterUiState, navigateToHome: Option<string>)

  const INITIAL: RegisterVm := RegisterVm(DEFAULT_UI_STATE, None)

  type RegisterUseCase = (string, string, string, string, string, string) -> Resource<Estudiante>

  /** The six text fields of the form. */
  datatype Field = FullName | Email | Password | Department | Municipality | Grade

  function Get(ui: RegisterUiState, f: Field): string {
    match f
    case FullName => ui.fullName
    case Email => ui.email
    case Password => ui.password
    case Department => ui.department
    case Municipality => ui.municipality
    case Grade => ui.grade
  }

  /** Same state apart from the text fields and the error message. */
  predicate SameFlags(a: RegisterUiState, b: RegisterUiState) {
    a.isLoading == b.isLoading && a.isRegisterSuccessful == b.isRegisterSuccessful
  }

  /** The setter behind each of `onFullNameChange` … `onGradeChange`. */
  function OnFieldChange(vm: RegisterVm, f: Field, value: string): (r: RegisterVm)
    ensures Get(r.uiState, f) == value
    ensures forall g :: g != f ==> Get(r.uiState, g) == Get(vm.uiState, g)
    ensures r.uiState.errorMessage == None && SameFlags(r.uiState, vm.uiState)
    ensures r.navigateToHome == vm.navigateToHome
  {
    var ui := vm.uiState;
    var ui' := match f
      case FullName => ui.(fullName := value, errorMessage := None)
      case Email => ui.(email := value, errorMessage := None)
      case Password => ui.(password := value, errorMessage := None)
      case Department => ui.(department := value, errorMessage := None)
      case Municipality => ui.(municipality := value, errorMessage := None)
      case Grade => ui.(grade := value, errorMessage := None);
    vm.(uiState := ui')
  }

  /** True when some field is blank, which stops the registration locally. */
  predicate AnyBlank(ui: RegisterUiState) {
    IsBlank(ui.fullName) || IsBlank(ui.email) || IsBlank(ui.password) ||
    IsBlank(ui.department) || IsBlank(ui.municipality) || IsBlank(ui.grade)
  }

  /** The use case's answer for the current form, fields in the order
      name, email, password, department, municipality, grade. */
  function Answer(vm: RegisterVm, useCase: RegisterUseCase): Resource<Estudiante> {
    var ui := vm.uiState;
    useCase(ui.fullName, ui.email, ui.password, ui.department, ui.municipality, ui.grade)
  }

  /** The register action, given the use case. */
  function Register(vm: RegisterVm, useCase: RegisterUseCase): (r: RegisterVm)
    ensures forall f :: Get(r.uiState, f) == Get(vm.uiState, f)
    // a blank field: message, no call, no navigation
    ensures (exists f :: IsBlank(Get(vm.uiState, f))) ==>
      && r.uiState == vm.uiState.(isLoading := false, errorMessage := Some(INCOMPLETE_MESSAGE))
      && r.navigateToHome == vm.navigateToHome
    // success: flagged, and the new student's id is signalled
    ensures !AnyBlank(vm.uiState) && Answer(vm, useCase).Success? ==>
      && r.uiState == vm.uiState.(isLoading := false, isRegisterSuccessful := true, errorMessage := None)
      && r.navigateToHome == Some(Answer(vm, useCase).value.id)
    // error: the message, no navigation
    ensures !AnyBlank(vm.uiState) && Answer(vm, useCase).Error? ==>
      && r.uiState == vm.uiState.(isLoading := false, errorMessage := Some(Answer(vm, useCase).msg))
      && r.navigateToHome == vm.navigateToHome
    // still loading: the spinner stays on
    ensures !AnyBlank(vm.uiState) && Answer(vm, useCase).Loading? ==>
      r == vm.(uiState := vm.uiState.(isLoading := true, errorMessage := None))
    // navigation is only ever signalled by a successful registration
    ensures r.navigateToHome != vm.navigateToHome ==> r.uiState.isRegisterSuccessful
  {
    var current := vm.uiState.(isLoading := true, errorMessage := None);
    if AnyBlank(current) then
      assert IsBlank(Get(vm.uiState, FullName)) || IsBlank(Get(vm.uiState, Email)) || IsBlank(Get(vm.uiState, Password))
        || IsBlank(Get(vm.uiState, Department)) || IsBlank(Get(vm.uiState, Municipality)) || IsBlank(Get(vm.uiState, Grade));
      vm.(uiState := current.(isLoading := false, errorMessage := Some(INCOMPLETE_MESSAGE)))
    else
      assert forall f :: !IsBlank(Get(vm.uiState, f));
      var result := useCase(current.fullName, current.email, current.password,
                            current.department, current.municipality, current.grade);
      match result
      case Success(_) =>
        var nav := match result.Data()
          case Some(estudiante) => Some(estudiante.id)
          case None => vm.navigateToHome;
        RegisterVm(current.(isLoading := false, isRegisterSuccessful := true, errorMessage := None), nav)
      case Error(_, _) =>
        vm.(uiState := current.(isLoading := false,
                                errorMessage := Some(result.Message().GetOr(UNKNOWN_MESSAGE))))
      case Loading =>
        vm.(uiState := current)
  }

  /** The screen has navigated: the signal is cleared and nothing else changes. */
  function OnNavigationHandled(vm: RegisterVm): (r: RegisterVm)
    ensures r.navigateToHome == None && r.uiState == vm.uiState
  {
    vm.(navigateToHome := None)
  }

  /** Back to the default form; the navigation signal is a separate flow and
      is left alone. */
  function ResetUiState(vm: RegisterVm): (r: RegisterVm)
    ensures r.uiState == DEFAULT_UI_STATE && r.navigateToHome == vm.navigateToHome
    ensures forall f :: Get(r.uiState, f) == ""
  {
    vm.(uiState := DEFAULT_UI_STATE)
  }

  /** The use case is given the six fields in form order: two use cases that
      agree on that one call give the same outcome. */
  lemma UseCaseCalledWithFieldsInOrder(vm: RegisterVm, useCase1: RegisterUseCase, useCase2: RegisterUseCase)
    requires var ui := vm.uiState;
      useCase1(ui.fullName, ui.email, ui.password, ui.department, ui.municipality, ui.grade)
      == useCase2(ui.fullName, ui.email, ui.password, ui.department, ui.municipality, ui.grade)
    ensures Register(vm, useCase1) == Register(vm, useCase2)
  {
  }

  /** With a blank field the use case is not consulted at all. */
  lemma BlankFieldMakesNoCall(vm: RegisterVm, f: Field, useCase1: RegisterUseCase, useCase2: RegisterUseCase)
    requires IsBlank(Get(vm.uiState, f))
    ensures Register(vm, useCase1) == Register(vm, useCase2)
  {
  }

  /** A successful registration followed by the screen's acknowledgement
      leaves no pending navigation and keeps the success flag. */
  lemma NavigateOnce(vm: RegisterVm, useCase: RegisterUseCase)
    requires !AnyBlank(vm.uiState) && Answer(vm, useCase).Success?
    ensures Register(vm, useCase).navigateToHome.Some?
    ensures var r := OnNavigationHandled(Register(vm, useCase));
      r.navigateToHome == None && r.uiState.isRegisterSuccessful
  {
  }
}

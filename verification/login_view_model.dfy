/** The login screen's state holder: two field setters, the login action
    with its local validation, a failure counter and a lock after three
    failures, and the reset. The login use case is a parameter of the action:
    it is given `(email, password)` and returns the repository's `Resource`. */
module LoginViewModel {
  import opened Optional
  import opened Resources
  import opened Domain
  import opened KotlinText

  const BLANK_MESSAGE: string := "Por favor, ingresa tu correo y contraseña."
  const DOMAIN_MESSAGE: string := "Por favor, en el correo ingresa un dominio valido"
  const UNKNOWN_MESSAGE: string := "Error desconocido al iniciar sesión."
  const LOCK_THRESHOLD: int := 3

  datatype LoginUiState = LoginUiState(
    email: string,
    password: string,
    isLoading: bool,
    errorMessage: Option<string>,
    isLoadingSuccessFul: bool,
    bloquearBtnLogin: bool)

  const DEFAULT_UI_STATE: LoginUiState := LoginUiState("", "", false, None, false, false)

  /** The published state, plus the failure counter, which is a plain `Int`
      property of the view model and not part of the published state. */
  datatype LoginVm = LoginVm(uiState: LoginUiState, contadorFallasLogin: Int32)

  const INITIAL: LoginVm := LoginVm(DEFAULT_UI_STATE, 0)

  type LoginUseCase = (string, string) -> Resource<Estudiante>

  function OnEmailChange(vm: LoginVm, email: string): (r: LoginVm)
    ensures r.uiState.email == email && r.uiState.errorMessage == None
    ensures r.uiState.(email := vm.uiState.email, errorMessage := vm.uiState.errorMessage) == vm.uiState
    ensures r.contadorFallasLogin == vm.contadorFallasLogin
  {
    vm.(uiState := vm.uiState.(email := email, errorMessage := None))
  }

  function OnPasswordChange(vm: LoginVm, password: string): (r: LoginVm)
    ensures r.uiState.password == password && r.uiState.errorMessage == None
    ensures r.uiState.(password := vm.uiState.password, errorMessage := vm.uiState.errorMessage) == vm.uiState
    ensures r.contadorFallasLogin == vm.contadorFallasLogin
  {
    vm.(uiState := vm.uiState.(password := password, errorMessage := None))
  }

  /** The local validation: the message that stops the login before any call,
      or null when the credentials may be sent. */
  function ValidationError(ui: LoginUiState): (r: Option<string>)
    ensures r.None? <==> !IsBlank(ui.email) && !IsBlank(ui.password) && '@' in ui.email
    ensures IsBlank(ui.email) || IsBlank(ui.password) ==> r == Some(BLANK_MESSAGE)
    ensures !IsBlank(ui.email) && !IsBlank(ui.password) && '@' !in ui.email ==> r == Some(DOMAIN_MESSAGE)
  {
    if IsBlank(ui.email) || IsBlank(ui.password) then Some(BLANK_MESSAGE)
    else if '@' !in ui.email then Some(DOMAIN_MESSAGE)
    else None
  }

  /** The login action, given the use case. */
  function Login(vm: LoginVm, useCase: LoginUseCase): (r: LoginVm)
    // the form fields are never touched
    ensures r.uiState.email == vm.uiState.email && r.uiState.password == vm.uiState.password
    // validation failures: message shown, no spinner, counter and lock untouched
    ensures ValidationError(vm.uiState).Some? ==>
      && r.uiState == vm.uiState.(isLoading := false, errorMessage := ValidationError(vm.uiState))
      && r.contadorFallasLogin == vm.contadorFallasLogin
    // success: flagged, no spinner, no message, counter untouched
    ensures ValidationError(vm.uiState).None? && useCase(vm.uiState.email, vm.uiState.password).Success? ==>
      && r.uiState == vm.uiState.(isLoading := false, isLoadingSuccessFul := true, errorMessage := None)
      && r.contadorFallasLogin == vm.contadorFallasLogin
    // error: counted, message shown, locked exactly from the third failure on
    ensures ValidationError(vm.uiState).None? && useCase(vm.uiState.email, vm.uiState.password).Error? ==>
      && r.contadorFallasLogin == Wrap32(vm.contadorFallasLogin + 1)
      && r.uiState.errorMessage == Some(useCase(vm.uiState.email, vm.uiState.password).msg)
      && !r.uiState.isLoading
      && (r.uiState.bloquearBtnLogin <==> r.contadorFallasLogin >= LOCK_THRESHOLD)
      && r.uiState.isLoadingSuccessFul == vm.uiState.isLoadingSuccessFul
    // still loading: the spinner stays on
    ensures ValidationError(vm.uiState).None? && useCase(vm.uiState.email, vm.uiState.password).Loading? ==>
      r == vm.(uiState := vm.uiState.(isLoading := true, errorMessage := None))
  {
    var loading := vm.uiState.(isLoading := true, errorMessage := None);
    var email := loading.email;
    var password := loading.password;
    if IsBlank(email) || IsBlank(password) then
      vm.(uiState := loading.(isLoading := false, errorMessage := Some(BLANK_MESSAGE)))
    else if '@' !in email then
      vm.(uiState := loading.(isLoading := false, errorMessage := Some(DOMAIN_MESSAGE)))
    else
      var result := useCase(email, password);
      match result
      case Success(_) =>
        vm.(uiState := loading.(isLoading := false, isLoadingSuccessFul := true, errorMessage := None))
      case Error(_, _) =>
        var count := Wrap32(vm.contadorFallasLogin + 1);
        var lock := count >= LOCK_THRESHOLD;
        LoginVm(loading.(bloquearBtnLogin := lock, isLoading := false,
                         errorMessage := Some(result.Message().GetOr(UNKNOWN_MESSAGE))),
                count)
      case Loading =>
        vm.(uiState := loading)
  }

  /** Back to the default published state; the failure counter survives. */
  function ResetUiState(vm: LoginVm): (r: LoginVm)
    ensures r.uiState == DEFAULT_UI_STATE
    ensures r.contadorFallasLogin == vm.contadorFallasLogin
  {
    vm.(uiState := DEFAULT_UI_STATE)
  }

  /** When validation fails the use case is not consulted: the outcome is the
      same whatever it would have answered. */
  lemma ValidationFailureMakesNoCall(vm: LoginVm, useCase1: LoginUseCase, useCase2: LoginUseCase)
    requires ValidationError(vm.uiState).Some?
    ensures Login(vm, useCase1) == Login(vm, useCase2)
  {
  }

  /** Otherwise the outcome depends only on the use case's answer for the
      current `(email, password)`. */
  lemma UseCaseCalledWithCredentials(vm: LoginVm, useCase1: LoginUseCase, useCase2: LoginUseCase)
    requires useCase1(vm.uiState.email, vm.uiState.password) == useCase2(vm.uiState.email, vm.uiState.password)
    ensures Login(vm, useCase1) == Login(vm, useCase2)
  {
  }

  /** The blank check is made before the '@' check. */
  lemma BlankCheckFirst(ui: LoginUiState)
    requires IsBlank(ui.email)
    ensures ValidationError(ui) == Some(BLANK_MESSAGE)
  {
  }

  /** Starting from a fresh view model with sendable credentials and a use case
      that always fails, the first two attempts leave the button enabled and
      the third disables it. */
  lemma ThirdFailureLocks(email: string, password: string, useCase: LoginUseCase)
    requires ValidationError(INITIAL.uiState.(email := email, password := password)).None?
    requires forall e, p :: useCase(e, p).Error?
    ensures var vm0 := LoginVm(INITIAL.uiState.(email := email, password := password), 0);
      var vm1 := Login(vm0, useCase);
      var vm2 := Login(vm1, useCase);
      var vm3 := Login(vm2, useCase);
      && !vm1.uiState.bloquearBtnLogin && vm1.contadorFallasLogin == 1
      && !vm2.uiState.bloquearBtnLogin && vm2.contadorFallasLogin == 2
      && vm3.uiState.bloquearBtnLogin && vm3.contadorFallasLogin == 3
  {
  }

  /** Once at or past the threshold, further failures keep the button locked
      (until the 32-bit counter would wrap around). */
  lemma LockIsSticky(vm: LoginVm, useCase: LoginUseCase)
    requires LOCK_THRESHOLD <= vm.contadorFallasLogin < INT_MAX
    requires ValidationError(vm.uiState).None?
    requires useCase(vm.uiState.email, vm.uiState.password).Error?
    ensures Login(vm, useCase).uiState.bloquearBtnLogin
  {
  }

  /** Neither a validation failure nor a success counts as a failure, and a
      success leaves the lock as it was. */
  lemma OnlyErrorsCount(vm: LoginVm, useCase: LoginUseCase)
    requires ValidationError(vm.uiState).Some? || useCase(vm.uiState.email, vm.uiState.password).Success?
    ensures Login(vm, useCase).contadorFallasLogin == vm.contadorFallasLogin
    ensures Login(vm, useCase).uiState.bloquearBtnLogin == vm.uiState.bloquearBtnLogin
  {
  }
}

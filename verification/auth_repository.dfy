/** The authentication repository: registration and login, each one remote
    call classified like the other repositories (Retrofit's `HttpException`). */
module AuthRepository {
  import opened Optional
  import opened Resources
  import opened Domain
  import opened Dto
  import opened RemoteCall
  import AuthMapper

  const REGISTER_FALLBACK: string := "Error desconocido en el registro"
  const LOGIN_FALLBACK: string := "Error desconocido en el login"
  const CAUGHT: HttpExceptionClass := Retrofit

  type Outcome = CallOutcome<ApiResponse<EstudianteDto>>

  /** POST auth/register, with a request built from the six arguments. */
  function RegisterUser(fullName: string, email: string, password: string,
                        department: string, municipality: string, grade: string,
                        remote: RegisterRequest -> Outcome): (r: Resource<Estudiante>)
    ensures !r.Loading?
    ensures var o := remote(RegisterRequest(fullName, email, password, department, municipality, grade));
      && (r.Success? <==> Payload(o).Some?)
      && (r.Success? ==> r.value == AuthMapper.EstudianteToDomain(Payload(o).value))
      && (o.Responded? && Payload(o).None? ==> r == ErrorOf(o.errorBody.GetOr(REGISTER_FALLBACK)))
      && (o.Thrown? ==> r == ErrorOf(ThrownText(o.kind, o.localizedMessage, Retrofit)))
  {
    var request := RegisterRequest(fullName, email, password, department, municipality, grade);
    Classify(remote(request), AuthMapper.EstudianteToDomain, REGISTER_FALLBACK, CAUGHT)
  }

  /** POST auth/login, with the request `(email, password)`. */
  function LoginUser(email: string, password: string, remote: LoginRequest -> Outcome): (r: Resource<Estudiante>)
    ensures !r.Loading?
    ensures var o := remote(LoginRequest(email, password));
      && (r.Success? <==> Payload(o).Some?)
      && (r.Success? ==> r.value == AuthMapper.EstudianteToDomain(Payload(o).value))
      && (o.Responded? && Payload(o).None? ==> r == ErrorOf(o.errorBody.GetOr(LOGIN_FALLBACK)))
      && (o.Thrown? ==> r == ErrorOf(ThrownText(o.kind, o.localizedMessage, Retrofit)))
  {
    var request := LoginRequest(email, password);
    Classify(remote(request), AuthMapper.EstudianteToDomain, LOGIN_FALLBACK, CAUGHT)
  }

  /** Registration only depends on the server's answer to the request whose
      fields are the six arguments in order. */
  lemma RegisterRequestFieldsInOrder(fullName: string, email: string, password: string,
                                     department: string, municipality: string, grade: string,
                                     remote1: RegisterRequest -> Outcome, remote2: RegisterRequest -> Outcome)
    requires var q := RegisterRequest(fullName, email, password, department, municipality, grade);
      remote1(q) == remote2(q)
    ensures RegisterUser(fullName, email, password, department, municipality, grade, remote1)
         == RegisterUser(fullName, email, password, department, municipality, grade, remote2)
  {
  }

  /** Login only depends on the server's answer to `(email, password)`. */
  lemma LoginRequestFields(email: string, password: string, remote1: LoginRequest -> Outcome, remote2: LoginRequest -> Outcome)
    requires remote1(LoginRequest(email, password)) == remote2(LoginRequest(email, password))
    ensures LoginUser(email, password, remote1) == LoginUser(email, password, remote2)
  {
  }
}

# CaribeApp core, modelled in Dafny

CaribeApp ("PREPARATE ICFES CARIBE") is an Android client where students prepare for
the ICFES exam. They log in or register, see their classes with forums and practice
exams (*simulacros*), and answer an exam's questions one screen at a time. This
project models the app's client-side logic as immutable datatypes and pure
functions, and proves properties about them. It covers five parts:

1. **Result envelope and failure classification.** `Resource` (`resource.dfy`) is
   Success, Error or Loading. `RemoteCall` (`remote_call.dfy`) turns a network
   outcome into a `Resource`. The outcome is either a response (status, optional
   body envelope, optional error body) or a thrown exception. That conversion is
   shared by the student, question and auth repositories
   (`estudiante_repository.dfy`, `pregunta_repository.dfy`, `auth_repository.dfy`).
   Each repository names which `HttpException` class its first handler catches:
   Retrofit's for students and auth, coil's for questions.
2. **DTO ↔ domain mappers** (`estudiante_mapper.dfy`, `auth_mapper.dfy`,
   `pregunta_mapper.dfy`) over the records in `dto.dfy` and `domain.dfy`.
   They come with round-trip and field-dropped laws.
3. **Screen state machines.** One module per view model:
   - `login_view_model.dfy`, `register_view_model.dfy`
   - `home_view_model.dfy`, `class_view_model.dfy`
   - `simulacro_view_model.dfy`, `quiz_view_model.dfy`

   Each action is a function from the current state, and the answer of the use
   case or fetch it calls, to the next state. The use case or fetch is a function
   parameter, so "not called" and "called with these arguments" are stated as
   independence lemmas. The searches inside a student's record are in
   `student_lookup.dfy`.
4. **Quiz navigation.** `quiz_navigation.dfy` has the quiz screen's
   previous/next buttons, including the list access that can throw.
   `simulacro_screen.dfy` has the "Empezar Simulacro" button. `quiz_flow.dfy`
   chains route → argument parsing → load → button.
5. **Class tab filter** (`class_screen.dfy`): which exams each tab shows.

`optional.dfy`, `lists.dfy` and `kotlin_text.dfy` model the Kotlin library
behaviour the code relies on:
- nullable values and `?:`;
- `map`, `flatMap`, `filter` and `find`;
- `Int` wrap-around, `List.size`;
- `isBlank` with the JVM whitespace set;
- `Int.toString` and `String.toIntOrNull`, with a proof that reading back a
  written `Int` gives the same `Int`.

Where the sources disagree, the model follows the code that runs:
- The student DTO class has no `contrasenaHash` field, but the student mapper
  sets one. The DTO record here carries it.
- The domain student class spells the registration date `fechaRegisto`, while
  both mappers write `fechaRegistro`. The model uses `fechaRegistro` for both.
- `Opcion`'s fields (`id`, `letra`, `texto`) are taken from the question mapper,
  which builds it.
- The question API interface declares bare DTOs. The repositories read a `data`
  field from a response envelope. The model follows the repositories.

## Model

| member | source | states |
|---|---|---|
| Optional.Option.GetOr | app/src/main/java/edu/sena/caribeapp/presentation/quiz/QuizViewModel.kt:127 | `x ?: fallback`: the value when present, the fallback when null |
| Resources.Resource.Data | app/src/main/java/edu/sena/caribeapp/util/Resource.kt:11-31 | `data` is the value of a Success, the optional partial value of an Error, null for Loading |
| Resources.Resource.Message | app/src/main/java/edu/sena/caribeapp/util/Resource.kt:11-31 | `message` is non-null exactly for Error, and is then the error text |
| Resources.ErrorOf | app/src/main/java/edu/sena/caribeapp/util/Resource.kt:24 | `Error(m)` without data has message `m` and null data |
| Resources.ResourceProperties | app/src/main/java/edu/sena/caribeapp/util/Resource.kt:11-31 | each variant's `data`/`message`, and every Resource is exactly one of Success, Error, Loading |
| RemoteCall.Payload | app/src/main/java/edu/sena/caribeapp/data/estudiantes/repository/EstudianteRepositoryImpl.kt:55-58 | the payload is present exactly when the response is successful with a non-null `data` in the body |
| RemoteCall.ThrownText | app/src/main/java/edu/sena/caribeapp/data/estudiantes/repository/EstudianteRepositoryImpl.kt:68-73 | caught `HttpException` gives its message or "Error HTTP inesperado"; `IOException` the fixed connectivity text; anything else its message or "Ocurrió un error inesperado" |
| RemoteCall.Classify | app/src/main/java/edu/sena/caribeapp/data/estudiantes/repository/EstudianteRepositoryImpl.kt:52-75 | never Loading; Success of the mapped payload iff there is a payload; otherwise the error body or the operation fallback; thrown exceptions per `ThrownText` |
| RemoteCall.ClassifyStatus | app/src/main/java/edu/sena/caribeapp/data/estudiantes/repository/EstudianteRepositoryImpl.kt:126-142 | delete-style calls succeed on a successful status alone, with no body check; otherwise as `Classify` |
| RemoteCall.ClassifyFollowsTaxonomy | app/src/main/java/edu/sena/caribeapp/data/estudiantes/repository/EstudianteRepositoryImpl.kt:52-75 | the classifier errs exactly when the failure taxonomy diagnoses a failure, and then shows that failure's user text |
| RemoteCall.ConnectivityIgnoresMessage | app/src/main/java/edu/sena/caribeapp/data/estudiantes/repository/EstudianteRepositoryImpl.kt:70-71 | an `IOException` gives the same result whatever its own message |
| RemoteCall.OtherHttpClassIsUnexpected | app/src/main/java/edu/sena/caribeapp/data/preguntas/repository/PreguntaRepositoryImpl.kt:35-40 | an `HttpException` of the class a repository does not catch is handled as an unexpected exception |
| EstudianteRepository.GetAllEstudiantes | app/src/main/java/edu/sena/caribeapp/data/estudiantes/repository/EstudianteRepositoryImpl.kt:26-50 | never Loading; Success of the element-wise mapped list (same length and order) iff a payload; with no payload, `Error` of the error body or else the fallback "Error desconocido al obtener estudiantes"; a thrown exception gives its `ThrownText` |
| EstudianteRepository.GetEstudianteById | app/src/main/java/edu/sena/caribeapp/data/estudiantes/repository/EstudianteRepositoryImpl.kt:52-75 | the remote is asked for the given id; Success of the mapped student iff a payload; with no payload, `Error` of the error body or else the fallback "Estudiante no encontrado"; a thrown exception gives its `ThrownText` |
| EstudianteRepository.CreateEstudiante | app/src/main/java/edu/sena/caribeapp/data/estudiantes/repository/EstudianteRepositoryImpl.kt:78-101 | sends `toDto` of the argument; Success of the mapped answer iff a payload; with no payload, `Error` of the error body or else the fallback "Error al crear estudiante"; a thrown exception gives its `ThrownText` |
| EstudianteRepository.UpdateEstudiante | app/src/main/java/edu/sena/caribeapp/data/estudiantes/repository/EstudianteRepositoryImpl.kt:103-124 | sends the id and `toDto` of the argument; Success of the mapped answer iff a payload; with no payload, `Error` of the error body or else the fallback "Error al actualizar estudiante"; a thrown exception gives its `ThrownText` |
| EstudianteRepository.DeleteEstudiante | app/src/main/java/edu/sena/caribeapp/data/estudiantes/repository/EstudianteRepositoryImpl.kt:126-142 | `Success(Unit)` iff the status is successful, body ignored; a failed status gives `Error` of the error body or else "Error al eliminar estudiante"; a thrown exception gives its `ThrownText` |
| EstudianteRepository.ExceptionsInEveryOperation | app/src/main/java/edu/sena/caribeapp/data/estudiantes/repository/EstudianteRepositoryImpl.kt:43-140 | every operation turns the same thrown exception into the same error text |
| EstudianteRepository.EchoingServerReturnsSentStudent | app/src/main/java/edu/sena/caribeapp/data/estudiantes/repository/EstudianteRepositoryImpl.kt:78-101 | against a server that echoes what it receives, create returns the student without participants |
| EstudianteRepository.GetByIdDeterministic | app/src/main/java/edu/sena/caribeapp/data/estudiantes/repository/EstudianteRepositoryImpl.kt:52-75 | the result depends only on the remote's answer for the requested id |
| PreguntaRepository.GetAllPreguntas | app/src/main/java/edu/sena/caribeapp/data/preguntas/repository/PreguntaRepositoryImpl.kt:21-42 | never Loading; Success of the element-wise mapped list iff a payload; with no payload, `Error` of the error body or else the fallback "Error desconocido al obtener preguntas"; a thrown exception gives its `ThrownText` |
| PreguntaRepository.GetPreguntaById | app/src/main/java/edu/sena/caribeapp/data/preguntas/repository/PreguntaRepositoryImpl.kt:44-64 | Success of the mapped question iff a payload; with no payload, `Error` of the error body or else the fallback "Pregunta no encontrada"; a thrown exception gives its `ThrownText` |
| PreguntaRepository.CreatePregunta | app/src/main/java/edu/sena/caribeapp/data/preguntas/repository/PreguntaRepositoryImpl.kt:66-86 | sends `toDto` of the argument; Success of the mapped answer iff a payload; with no payload, `Error` of the error body or else the fallback "Error al crear pregunta"; a thrown exception gives its `ThrownText` |
| PreguntaRepository.UpdatePregunta | app/src/main/java/edu/sena/caribeapp/data/preguntas/repository/PreguntaRepositoryImpl.kt:88-108 | sends the id and `toDto` of the argument; Success of the mapped answer iff a payload; with no payload, `Error` of the error body or else the fallback "Error al actualizar pregunta"; a thrown exception gives its `ThrownText` |
| PreguntaRepository.DeletePregunta | app/src/main/java/edu/sena/caribeapp/data/preguntas/repository/PreguntaRepositoryImpl.kt:110-126 | `Success(Unit)` iff the status is successful; a failed status gives `Error` of the error body or else "Error al eliminar pregunta"; a thrown exception gives its `ThrownText` |
| PreguntaRepository.ExceptionsInEveryOperation | app/src/main/java/edu/sena/caribeapp/data/preguntas/repository/PreguntaRepositoryImpl.kt:35-124 | every operation turns the same thrown exception into the same error text, with the coil `HttpException` as the caught class |
| PreguntaRepository.EchoingServerReturnsSentQuestion | app/src/main/java/edu/sena/caribeapp/data/preguntas/repository/PreguntaRepositoryImpl.kt:66-86 | against an echoing server, create returns the question with `tema` replaced by `area` |
| PreguntaRepository.UpdateSendsGivenId | app/src/main/java/edu/sena/caribeapp/data/preguntas/repository/PreguntaRepositoryImpl.kt:88-91 | update depends only on the remote's answer for the given id and `toDto(pregunta)` |
| AuthRepository.RegisterUser | app/src/main/java/edu/sena/caribeapp/data/auth/repository/AuthRepositoryImpl.kt:30-68 | sends the request built from the six arguments in order; Success of the mapped student iff a payload; fallback "Error desconocido en el registro" |
| AuthRepository.LoginUser | app/src/main/java/edu/sena/caribeapp/data/auth/repository/AuthRepositoryImpl.kt:76-102 | sends `(email, password)`; Success of the mapped student iff a payload; fallback "Error desconocido en el login" |
| AuthRepository.RegisterRequestFieldsInOrder | app/src/main/java/edu/sena/caribeapp/data/auth/repository/AuthRepositoryImpl.kt:40 | registration depends only on the answer to the request whose fields are the arguments in order |
| AuthRepository.LoginRequestFields | app/src/main/java/edu/sena/caribeapp/data/auth/repository/AuthRepositoryImpl.kt:78 | login depends only on the answer to the `(email, password)` request |
| EstudianteMapper.ClaseToDomain | app/src/main/java/edu/sena/caribeapp/data/estudiantes/mapper/EstudianteMapper.kt:46-54 | a mapped class has no participants |
| EstudianteMapper.EstudianteToDto | app/src/main/java/edu/sena/caribeapp/data/estudiantes/mapper/EstudianteMapper.kt:103-116 | `contrasenaHash` is always "" and `v` always 0 |
| EstudianteMapper.ForoRoundTrip | app/src/main/java/edu/sena/caribeapp/data/estudiantes/mapper/EstudianteMapper.kt:25-79 | forum `toDomain` and `toDto` are mutually inverse |
| EstudianteMapper.SimulacroRoundTrip | app/src/main/java/edu/sena/caribeapp/data/estudiantes/mapper/EstudianteMapper.kt:34-91 | exam `toDomain` and `toDto` are mutually inverse on all seven fields |
| EstudianteMapper.ClaseToDomainElementwise | app/src/main/java/edu/sena/caribeapp/data/estudiantes/mapper/EstudianteMapper.kt:46-54 | `foros` and `simulacros` are mapped element-wise, keeping length and order |
| EstudianteMapper.ClaseDtoRoundTrip | app/src/main/java/edu/sena/caribeapp/data/estudiantes/mapper/EstudianteMapper.kt:46-101 | `toDto(toDomain(d)) == d` for every class DTO |
| EstudianteMapper.ClaseRoundTrip | app/src/main/java/edu/sena/caribeapp/data/estudiantes/mapper/EstudianteMapper.kt:46-101 | `toDomain(toDto(c))` is `c` without participants, so equals `c` iff it had none |
| EstudianteMapper.NullClassesPreserved | app/src/main/java/edu/sena/caribeapp/data/estudiantes/mapper/EstudianteMapper.kt:65-113 | a null class list stays null in both directions |
| EstudianteMapper.EstudianteDtoRoundTrip | app/src/main/java/edu/sena/caribeapp/data/estudiantes/mapper/EstudianteMapper.kt:56-116 | `toDto(toDomain(d))` is `d` with `contrasenaHash := ""` and `v := 0`, and equals `d` iff those already held |
| EstudianteMapper.EstudianteRoundTrip | app/src/main/java/edu/sena/caribeapp/data/estudiantes/mapper/EstudianteMapper.kt:56-116 | `toDomain(toDto(e))` is `e` with every class's participants dropped, and equals `e` iff there were none |
| AuthMapper.ClaseToDomain | app/src/main/java/edu/sena/caribeapp/data/auth/mapper/AuthMapper.kt:45-53 | a mapped class has no participants |
| AuthMapper.NestedRecordsCopied | app/src/main/java/edu/sena/caribeapp/data/auth/mapper/AuthMapper.kt:24-43 | forum and exam DTOs are copied field by field |
| AuthMapper.ClaseToDomainElementwise | app/src/main/java/edu/sena/caribeapp/data/auth/mapper/AuthMapper.kt:45-53 | nested lists are mapped element-wise, keeping length and order |
| AuthMapper.EstudianteIgnoresWireOnlyFields | app/src/main/java/edu/sena/caribeapp/data/auth/mapper/AuthMapper.kt:58-69 | `contrasenaHash` and `v` do not affect the student; a null class list stays null |
| AuthMapper.AgreesWithEstudianteMapper | app/src/main/java/edu/sena/caribeapp/data/auth/mapper/AuthMapper.kt:58-69 | this mapper's student `toDomain` equals the student mapper's on every input |
| PreguntaMapper.PreguntaToDomain | app/src/main/java/edu/sena/caribeapp/data/preguntas/mapper/PreguntaMapper.kt:22-32 | `tema` is taken from `area` |
| PreguntaMapper.PreguntaToDto | app/src/main/java/edu/sena/caribeapp/data/preguntas/mapper/PreguntaMapper.kt:45-56 | `v` is always 0 |
| PreguntaMapper.OpcionRoundTrip | app/src/main/java/edu/sena/caribeapp/data/preguntas/mapper/PreguntaMapper.kt:13-43 | option `toDomain` and `toDto` are mutually inverse |
| PreguntaMapper.TemaIgnored | app/src/main/java/edu/sena/caribeapp/data/preguntas/mapper/PreguntaMapper.kt:25-26 | the DTO's own `tema` never reaches the domain |
| PreguntaMapper.OpcionesElementwise | app/src/main/java/edu/sena/caribeapp/data/preguntas/mapper/PreguntaMapper.kt:28-53 | options are mapped element-wise in both directions, and `urlImagen` (null included) is kept |
| PreguntaMapper.PreguntaRoundTrip | app/src/main/java/edu/sena/caribeapp/data/preguntas/mapper/PreguntaMapper.kt:22-56 | `toDomain(toDto(p))` is `p` with `tema := area`, and equals `p` iff `tema == area` |
| PreguntaMapper.PreguntaDtoRoundTrip | app/src/main/java/edu/sena/caribeapp/data/preguntas/mapper/PreguntaMapper.kt:22-56 | `toDto(toDomain(d))` is `d` with `tema := area` and `v := 0` |
| KotlinText.Wrap32 | app/src/main/java/edu/sena/caribeapp/presentation/auth/login/LoginViewModel.kt:87 | `Int` arithmetic wraps modulo 2^32 and is exact inside the range |
| KotlinText.ListSize | app/src/main/java/edu/sena/caribeapp/presentation/simulacro/SimulacroViewModel.kt:62 | a list's `size` is its length when that fits in `Int`, and exactly `Int.MAX_VALUE` otherwise |
| KotlinText.ToIntOrNull | app/src/main/java/edu/sena/caribeapp/presentation/quiz/QuizViewModel.kt:41-45 | `toIntOrNull` gives a value only for digits after an optional '+' or '-', and then the value they write with its sign; every such string whose value fits in `Int` is accepted |
| KotlinText.IntToStringRoundTrip | app/src/main/java/edu/sena/caribeapp/presentation/quiz/screen/QuizScreen.kt:147-150 | `toIntOrNull(n.toString()) == n` for every `Int`, so index and count survive the route |
| KotlinText.NatToStringValue | app/src/main/java/edu/sena/caribeapp/presentation/quiz/screen/QuizScreen.kt:147-150 | the digits written for a natural number read back as that number |
| Lists.FindFirst | app/src/main/java/edu/sena/caribeapp/presentation/quiz/QuizViewModel.kt:65-86 | `find` gives null iff no element matches, and otherwise the first match |
| Lists.FlatMapLength | app/src/main/java/edu/sena/caribeapp/presentation/home/HomeViewModel.kt:55-56 | `flatMap`'s length is the sum of the pieces' lengths |
| Lists.FlatMapMembership | app/src/main/java/edu/sena/caribeapp/presentation/home/HomeViewModel.kt:55-56 | an element is in `flatMap` iff it is in some piece |
| Lists.FlatMapBlock | app/src/main/java/edu/sena/caribeapp/presentation/home/HomeViewModel.kt:55-56 | each piece appears, unchanged and in order, after the pieces before it |
| Lists.FilterMultiset | app/src/main/java/edu/sena/caribeapp/presentation/clase/ClassScreen.kt:264-265 | `filter` keeps every occurrence of a matching element and none of the others |
| Lists.FilterIsSubsequence | app/src/main/java/edu/sena/caribeapp/presentation/clase/ClassScreen.kt:264-265 | `filter` keeps the original order |
| LoginViewModel.OnEmailChange | app/src/main/java/edu/sena/caribeapp/presentation/auth/login/LoginViewModel.kt:36-38 | sets only the email and clears the error message |
| LoginViewModel.OnPasswordChange | app/src/main/java/edu/sena/caribeapp/presentation/auth/login/LoginViewModel.kt:43-45 | sets only the password and clears the error message |
| LoginViewModel.ValidationError | app/src/main/java/edu/sena/caribeapp/presentation/auth/login/LoginViewModel.kt:61-75 | the login is stopped iff a field is blank or the email lacks '@'; a blank field gives the blank message; otherwise a missing '@' gives "Por favor, en el correo ingresa un dominio valido" |
| LoginViewModel.Login | app/src/main/java/edu/sena/caribeapp/presentation/auth/login/LoginViewModel.kt:51-103 | fields untouched; validation failure shows its message; Success flags the login; Error counts, shows the message and locks iff the counter reaches 3; Loading keeps the spinner |
| LoginViewModel.ResetUiState | app/src/main/java/edu/sena/caribeapp/presentation/auth/login/LoginViewModel.kt:109-111 | restores the default state and keeps the failure counter |
| LoginViewModel.ValidationFailureMakesNoCall | app/src/main/java/edu/sena/caribeapp/presentation/auth/login/LoginViewModel.kt:61-75 | when validation fails the use case is not consulted |
| LoginViewModel.UseCaseCalledWithCredentials | app/src/main/java/edu/sena/caribeapp/presentation/auth/login/LoginViewModel.kt:77 | the outcome depends only on the use case's answer for the current credentials |
| LoginViewModel.BlankCheckFirst | app/src/main/java/edu/sena/caribeapp/presentation/auth/login/LoginViewModel.kt:61-75 | the blank check takes precedence over the '@' check |
| LoginViewModel.ThirdFailureLocks | app/src/main/java/edu/sena/caribeapp/presentation/auth/login/LoginViewModel.kt:86-95 | from a fresh screen, the first two failures leave the button enabled and the third disables it |
| LoginViewModel.LockIsSticky | app/src/main/java/edu/sena/caribeapp/presentation/auth/login/LoginViewModel.kt:86-95 | past the threshold every further failure keeps the button locked |
| LoginViewModel.OnlyErrorsCount | app/src/main/java/edu/sena/caribeapp/presentation/auth/login/LoginViewModel.kt:61-84 | validation failures and successes change neither the counter nor the lock |
| RegisterViewModel.OnFieldChange | app/src/main/java/edu/sena/caribeapp/presentation/auth/register/RegisterViewModel.kt:31-53 | each setter changes exactly its field and clears the error message |
| RegisterViewModel.Register | app/src/main/java/edu/sena/caribeapp/presentation/auth/register/RegisterViewModel.kt:55-100 | fields untouched; a blank field gives "Por favor, completa todos los campos."; Success flags and signals the new id; Error shows the message; navigation changes only on success |
| RegisterViewModel.OnNavigationHandled | app/src/main/java/edu/sena/caribeapp/presentation/auth/register/RegisterViewModel.kt:105-107 | clears the navigation signal and nothing else |
| RegisterViewModel.ResetUiState | app/src/main/java/edu/sena/caribeapp/presentation/auth/register/RegisterViewModel.kt:109-111 | restores the empty form |
| RegisterViewModel.UseCaseCalledWithFieldsInOrder | app/src/main/java/edu/sena/caribeapp/presentation/auth/register/RegisterViewModel.kt:70-77 | the outcome depends only on the use case's answer for the six fields in form order |
| RegisterViewModel.BlankFieldMakesNoCall | app/src/main/java/edu/sena/caribeapp/presentation/auth/register/RegisterViewModel.kt:60-68 | with a blank field the use case is not consulted |
| RegisterViewModel.NavigateOnce | app/src/main/java/edu/sena/caribeapp/presentation/auth/register/RegisterViewModel.kt:78-107 | a successful registration signals navigation once; handling it clears the signal |
| StudentLookup.TargetClase | app/src/main/java/edu/sena/caribeapp/presentation/quiz/QuizViewModel.kt:65-69 | the first class with the id; null iff the class list is null or has none |
| StudentLookup.TargetSimulacro | app/src/main/java/edu/sena/caribeapp/presentation/quiz/QuizViewModel.kt:81-86 | null iff no exam of the class has the id; otherwise an exam with the id, and it is the first such exam |
| StudentLookup.FindSimulacro | app/src/main/java/edu/sena/caribeapp/presentation/simulacro/SimulacroViewModel.kt:50-54 | the class, then the exam inside it; null iff either search fails |
| StudentLookup.FirstMatchingClassWins | app/src/main/java/edu/sena/caribeapp/presentation/quiz/QuizViewModel.kt:65-69 | with several matching classes the first is taken |
| StudentLookup.FirstMatchingSimulacroWins | app/src/main/java/edu/sena/caribeapp/presentation/quiz/QuizViewModel.kt:65-86 | with repeated ids the combined search returns the first matching class and, inside it, the first matching exam |
| QuizViewModel.ParseQuizArgs | app/src/main/java/edu/sena/caribeapp/presentation/quiz/QuizViewModel.kt:29-45 | created iff all six arguments are present and both numbers parse, with the values read; else the message of the first argument, in declaration order, that is missing or (for the two numbers) not an Int |
| QuizViewModel.LoadQuizData | app/src/main/java/edu/sena/caribeapp/presentation/quiz/QuizViewModel.kt:55-156 | student error, missing class, missing exam and question error each give their message; full success shows the student, class, exam, question, index and count |
| QuizViewModel.ResetUiState | app/src/main/java/edu/sena/caribeapp/presentation/quiz/QuizViewModel.kt:158-160 | restores the default state (index and count 0) |
| QuizViewModel.LoadedStateIsCoherent | app/src/main/java/edu/sena/caribeapp/presentation/quiz/QuizViewModel.kt:101-114 | a completed load shows a class of the student with the requested id, an exam of it with the requested id, and the fetched question |
| QuizViewModel.NoQuestionFetchWithoutExam | app/src/main/java/edu/sena/caribeapp/presentation/quiz/QuizViewModel.kt:71-95 | the question is not fetched unless the class and the exam were found |
| QuizViewModel.FetchesUseArguments | app/src/main/java/edu/sena/caribeapp/presentation/quiz/QuizViewModel.kt:61-100 | the fetches use the student id and the question id of the arguments |
| SimulacroViewModel.ParseSimulacroArgs | app/src/main/java/edu/sena/caribeapp/presentation/simulacro/SimulacroViewModel.kt:26-33 | created iff the three arguments are present, with the values read; else the message of the first missing one, in the order simulacroId, estudianteId, claseId |
| SimulacroViewModel.LoadSimulacroData | app/src/main/java/edu/sena/caribeapp/presentation/simulacro/SimulacroViewModel.kt:43-89 | a Loading result reaches `TODO()`; Error shows the message; a failed lookup gives "Simulacro no encontrado para la clase especificada."; success shows the exam and its question count |
| SimulacroViewModel.ResetUiState | app/src/main/java/edu/sena/caribeapp/presentation/simulacro/SimulacroViewModel.kt:91-93 | restores the default state |
| SimulacroViewModel.CountIsListSize | app/src/main/java/edu/sena/caribeapp/presentation/simulacro/SimulacroViewModel.kt:56-63 | the count shown is the size of the found exam's question list |
| SimulacroViewModel.FetchUsesStudentArgument | app/src/main/java/edu/sena/caribeapp/presentation/simulacro/SimulacroViewModel.kt:46 | only the student id argument is fetched |
| ClassViewModel.ParseClaseId | app/src/main/java/edu/sena/caribeapp/presentation/clase/ClassViewModel.kt:32-33 | created iff the class id argument is present |
| ClassViewModel.LoadClassData | app/src/main/java/edu/sena/caribeapp/presentation/clase/ClassViewModel.kt:45-88 | a found class is the first class with the id, shown with its own forums and exams; otherwise "No se encontró la clase con ID " + id; Error shows its message |
| ClassViewModel.ResetUiState | app/src/main/java/edu/sena/caribeapp/presentation/clase/ClassViewModel.kt:93-95 | restores the default state |
| ClassViewModel.OnlyFixedStudentIsRead | app/src/main/java/edu/sena/caribeapp/presentation/clase/ClassViewModel.kt:36-49 | only the fixed student id is ever fetched |
| ClassViewModel.ShownListsBelongToShownClass | app/src/main/java/edu/sena/caribeapp/presentation/clase/ClassViewModel.kt:54-63 | the forums and exams shown are those of the shown class, whose id is the requested one |
| HomeViewModel.ParseEstudianteId | app/src/main/java/edu/sena/caribeapp/presentation/home/HomeViewModel.kt:31-32 | created iff the student id argument is present |
| HomeViewModel.LoadHomeScreenData | app/src/main/java/edu/sena/caribeapp/presentation/home/HomeViewModel.kt:43-79 | Success shows the student, the classes (empty when null) and their flattened forums and exams; Error shows the message; tab and query untouched |
| HomeViewModel.OnTabSelected | app/src/main/java/edu/sena/caribeapp/presentation/home/HomeViewModel.kt:84-86 | changes only the selected tab |
| HomeViewModel.OnSearchQueryChange | app/src/main/java/edu/sena/caribeapp/presentation/home/HomeViewModel.kt:88-90 | changes only the search query |
| HomeViewModel.ResetUiState | app/src/main/java/edu/sena/caribeapp/presentation/home/HomeViewModel.kt:97-99 | restores the default state |
| HomeViewModel.ShownItemsComeFromClasses | app/src/main/java/edu/sena/caribeapp/presentation/home/HomeViewModel.kt:55-56 | a forum or exam is shown iff it belongs to one of the classes |
| HomeViewModel.ForoCountIsSum | app/src/main/java/edu/sena/caribeapp/presentation/home/HomeViewModel.kt:55 | the number of forums is the sum of the classes' forum counts |
| HomeViewModel.ForosKeepClassOrder | app/src/main/java/edu/sena/caribeapp/presentation/home/HomeViewModel.kt:55 | each class's forums appear in order after the previous classes' |
| HomeViewModel.SimulacrosKeepClassOrder | app/src/main/java/edu/sena/caribeapp/presentation/home/HomeViewModel.kt:56 | each class's exams appear in order after the previous classes' |
| HomeViewModel.NoClassesNoItems | app/src/main/java/edu/sena/caribeapp/presentation/home/HomeViewModel.kt:54-56 | a student without classes shows empty lists |
| QuizNavigation.RouteArguments | app/src/main/java/edu/sena/caribeapp/presentation/quiz/screen/QuizScreen.kt:143-151 | the next quiz screen receives the six route values under their argument names |
| QuizNavigation.RouteTo | app/src/main/java/edu/sena/caribeapp/presentation/quiz/screen/QuizScreen.kt:142-151 | the route to question `i` carries its id, `i` and the list size as text that reads back as those numbers |
| QuizNavigation.OnPreviousClick | app/src/main/java/edu/sena/caribeapp/presentation/quiz/screen/QuizScreen.kt:134-157 | refused (with its toast) iff index <= 0 or an id is empty; throws iff index - 1 is past the list; else goes to `list[index - 1]` |
| QuizNavigation.OnNextClick | app/src/main/java/edu/sena/caribeapp/presentation/quiz/screen/QuizScreen.kt:158-182 | refused iff index >= count - 1 (in `Int`) or an id is empty; throws iff index + 1 is outside the list; else goes to `list[index + 1]` |
| QuizNavigation.PositionedNeverThrows | app/src/main/java/edu/sena/caribeapp/presentation/quiz/screen/QuizScreen.kt:141-167 | with 0 <= index < count = list size, neither button throws, and each moves iff there is a question in its direction |
| QuizNavigation.PreviousWithoutListThrows | app/src/main/java/edu/sena/caribeapp/presentation/quiz/screen/QuizScreen.kt:138-142 | with no exam loaded, a "previous" click passing the guard throws |
| QuizNavigation.NextPastTheEndThrows | app/src/main/java/edu/sena/caribeapp/presentation/quiz/screen/QuizScreen.kt:166-167 | a count larger than the list lets "next" through on the last question, and the access throws |
| QuizNavigation.MinCountWrapsGuard | app/src/main/java/edu/sena/caribeapp/presentation/quiz/screen/QuizScreen.kt:166 | a count of `Int.MIN_VALUE` wraps `count - 1` and opens the guard |
| QuizNavigation.NegativeIndexThrows | app/src/main/java/edu/sena/caribeapp/presentation/quiz/screen/QuizScreen.kt:166-167 | a negative index below -1 passes the guard and makes the access throw |
| SimulacroScreen.StartSimulacro | app/src/main/java/edu/sena/caribeapp/presentation/simulacro/SimulacroScreen.kt:179-197 | navigates iff exam, student and class are present and the list is non-empty, to the first id with index 0 and the list size |
| QuizFlow.Arrival | app/src/main/java/edu/sena/caribeapp/presentation/quiz/QuizViewModel.kt:29-114 | opening the route to question `i` creates the view model and loads a positioned state on question `i` |
| QuizFlow.StartLandsOnFirstQuestion | app/src/main/java/edu/sena/caribeapp/presentation/simulacro/SimulacroScreen.kt:184-196 | starting the exam lands on a positioned state at index 0 |
| QuizFlow.SameExamSameRoutes | app/src/main/java/edu/sena/caribeapp/presentation/quiz/screen/QuizScreen.kt:142-151 | states showing the same student, class and exam build the same routes |
| QuizFlow.PreviousGoesBack | app/src/main/java/edu/sena/caribeapp/presentation/quiz/screen/QuizScreen.kt:142-151 | one question further on, "previous" builds the route to the question before |
| QuizFlow.NextIsRouteFor | app/src/main/java/edu/sena/caribeapp/presentation/quiz/screen/QuizScreen.kt:167-176 | from a positioned state with a later question, "next" builds the route to it |
| QuizFlow.NextThenPreviousReturns | app/src/main/java/edu/sena/caribeapp/presentation/quiz/screen/QuizScreen.kt:142-174 | "next", then loading, then "previous" gives back the route to the starting question |
| ClassScreen.FilteredSimulacros | app/src/main/java/edu/sena/caribeapp/presentation/clase/ClassScreen.kt:263-267 | tab 0 only open exams, tab 1 only completed ones, other tabs nothing, never longer than the input |
| ClassScreen.TabCountsAreExact | app/src/main/java/edu/sena/caribeapp/presentation/clase/ClassScreen.kt:263-267 | each tab holds every exam of its status with its multiplicity and nothing else |
| ClassScreen.TabKeepsOrder | app/src/main/java/edu/sena/caribeapp/presentation/clase/ClassScreen.kt:263-267 | each tab is an order-preserving sublist of the class's exams |
| ClassScreen.TabsAreDisjoint | app/src/main/java/edu/sena/caribeapp/presentation/clase/ClassScreen.kt:263-267 | no exam is under both tabs; an unknown status is under neither |
| ClassScreen.TabsCoverKnownStatuses | app/src/main/java/edu/sena/caribeapp/presentation/clase/ClassScreen.kt:263-266 | the two tabs together hold exactly the exams with one of the three known statuses |

## Left out

- Compose rendering, themes, Toasts and logging: these are UI and side effects. A refused quiz click is modelled by the toast text it would show.
- Coroutines, `viewModelScope` and `StateFlow`. Each action is modelled as one atomic transition. The intermediate "loading" emission before a call returns is folded into the transition.
- Retrofit, Gson, Hilt modules, remote data sources and use cases. Use cases only forward to repositories. The remote calls and use cases become function parameters.
- `errorBody().string()` throwing while it reads the body, and exceptions thrown inside the mappers. An error body is modelled as an optional string.
- KotlinText.ToIntOrNull: accepts ASCII digits only. Kotlin's `toIntOrNull` also accepts other Unicode decimal digits. The routes here only ever carry ASCII digits written by `Int.toString`.
- QuizNavigation.RouteArguments: route values reach the next screen verbatim. AppScreens.kt defines no quiz route string, so URL encoding and ids containing '/' are not modelled.
- LoginViewModel.LockIsSticky: stated only while the failure counter stays below `Int.MAX_VALUE`. One more failure after that wraps the counter negative and unlocks the button.
- SimulacroViewModel.LoadSimulacroData: a `Loading` answer reaches `TODO()`, which throws `NotImplementedError`. The model returns an explicit `NotImplemented` outcome for it rather than excluding that input.
- Unreachable branches after `Success` with a null `data` (e.g. "No se encontró el estudiante."): these are kept in the functions but never taken, because a `Success` always carries a value.
- HomeUiState's `accionBienvenidaPersonalizada` callback. It is a function value, never invoked (the call is commented out).
- The HomeScreen display helpers: pending-exam count and date truncation.
- ClassSimulacroCard: it reads fields the exam record does not have, and it is never used.
- The quiz progress bar: floating-point division.
- The navigation graph in MainActivity and the splash delay. These are navigation glue and timing.

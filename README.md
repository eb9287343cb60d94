# Result<ok_t, err_t> in Dafny

A model of the C++ module `result` (file `result.cpp`). The module provides `Result<ok_t, err_t>`, a two-variant tagged value in the style of Rust's `std::result`. All of it is in `result.dfy`, module `Results`:

- `None` (a pointer to the empty struct `None__`), the wrappers `Success<T>` and `Failure<E>`, and the factories `Ok()` (here `OkNone`, since Dafny has no overloading), `Ok(v)` and `Err(e)`. These are datatypes and functions.
- class `Result<T, E>` with the two fields the C++ class has. `success` is the discriminant. `storage` stands for the raw storage and holds either no live object (`Vacant`) or one payload of either type.
  - The ghost field `Value` is the outcome fixed at construction.
  - The ghost log `teardowns` records each run of the destructor: which payload destructor it called, and on what storage content.
  - `Valid()` says that the Result is live and that `success` and `storage` agree with `Value`.
- The constructors (from a `Success`, from a `Failure`, copy, move) and the destructor `Destroy` are imperative. They write the fields, and the move constructor also destroys its source.
- The accessors `TryGet`, `GetOk`, `GetErr` and `Expect` are `const` reads, and `operator bool` (here `ToBool`) only reads `m_success`. Here all five are functions with `reads this`, so none of them can change the discriminant or the payload.
- A misused accessor writes a line to the error stream and terminates the process. Here that outcome is the value `Terminates(text)` of type `Exit<T>`. `text` is the diagnostic followed by the newline that `std::endl` writes. The diagnostics of `GetOk` and `GetErr` are the constants `GetOkMisuse` and `GetErrMisuse`.
- `Expect` returns `nullptr` when `ok_t` is `None`, whatever pointer is stored. Dafny cannot test a type parameter, so that case is the separate function `ExpectNone` over `Result<None, E>`. `Result.Expect` is the instantiation for every other ok type.

Two points about the code itself:

- The comment at result.cpp:80 says the error type cannot be `None`, but the `static_assert` at result.cpp:81 compares `err_t` with `void`, not with `None`, so nothing enforces it. The model puts no such restriction on `E`.
- `Expect` ends in `cond ? nullptr : Ok()` (result.cpp:167). That conditional is ill-formed unless `std::nullptr_t` and `ok_t` have a common type, so `Result<int, int>::Expect` does not compile, and neither does `Expect` for `bool`, enumeration, floating-point or class ok types that cannot be built implicitly from `std::nullptr_t`. The model's `Expect` stands for the instantiations that do compile: pointer types, and class types implicitly constructible from `std::nullptr_t`.

The move constructor destroys its source, and the source's own destructor runs again when its scope ends; see "## Findings".

## Model

| member | source | states |
|---|---|---|
| `Results.OkNone` | result.cpp:53-56 | `Ok()` builds a success wrapper carrying the null sentinel |
| `Results.Ok` | result.cpp:61-64 | `Ok(v)` builds a success wrapper whose value is `v`; `OkRoundTrip` shows a Result built from it hands `v` back |
| `Results.Err` | result.cpp:69-72 | `Err(e)` builds a failure wrapper whose value is `e`; `ErrRoundTrip` shows a Result built from it hands `e` back |
| `Results.Result.FromSuccess` | result.cpp:87-91 | the new Result is live, its discriminant is true and its storage holds the wrapper's value as the success payload |
| `Results.Result.FromFailure` | result.cpp:93-97 | the new Result is live, its discriminant is false and its storage holds the wrapper's value as the failure payload |
| `Results.Result.Copy` | result.cpp:99-106 | the copy is live with the source's discriminant and an equal payload of the active type; the source is not changed; the two convert to the same bool and TryGet agrees on every default |
| `Results.Result.MoveAsWritten` | result.cpp:108-116 | the new Result holds the source's variant and payload; the source's destructor has then run once, on the source's own payload, leaving its storage vacant and its discriminant and value as they were |
| `Results.Result.Move` | result.cpp:108-114 | corrected move: the new Result holds the source's variant and payload; the source stays live with a payload of the same type, in a moved-from state |
| `Results.Result.Destroy` | result.cpp:118-124 | runs the destructor of the payload type the discriminant names and of no other, leaves the storage vacant and changes nothing else; on a live Result it tears down exactly the live payload, once |
| `Results.Result.ToBool` | result.cpp:173-176 | true exactly when the success payload is the live one |
| `Results.Result.TryGet` | result.cpp:126-133 | the success payload on a success, the caller's default on a failure |
| `Results.Result.GetOk` | result.cpp:139-146 | returns exactly when the Result is a success, and then returns the success payload; otherwise terminates after writing "Attempting to Result::GetOk an error Result." |
| `Results.Result.GetErr` | result.cpp:152-157 | returns exactly when the Result is a failure, and then returns the failure payload; otherwise terminates after writing "Attempting to Result::GetErr an ok Result." |
| `Results.Result.Expect` | result.cpp:163-168 | returns exactly when the Result is a success, and then returns the success payload; otherwise terminates after writing exactly the caller's message |
| `Results.ExpectNone` | result.cpp:163-168 | with ok type `None`: returns exactly on a success, and then returns `nullptr`; otherwise terminates after writing exactly the caller's message |
| `Results.IndistinguishableIff` | result.cpp:126-176 | the queries that cannot terminate (bool conversion, TryGet with every default, GetErr after a false conversion) give the same answers on two live Results exactly when the two hold the same variant and payload |
| `Results.TryGetIgnoresDefaultIff` | result.cpp:126-133 | when two distinct defaults exist, a Result is a success exactly when TryGet's answer does not depend on the default |
| `Results.OkRoundTrip` | result.cpp:61-168 | a Result built from `Ok(v)` converts to true; TryGet, GetOk and Expect all return `v`; GetErr terminates with its fixed diagnostic |
| `Results.OkNoneRoundTrip` | result.cpp:53-168 | a Result built from `Ok()` converts to true and `Expect` returns `nullptr` |
| `Results.ErrRoundTrip` | result.cpp:69-168 | a Result built from `Err(e)` converts to false; TryGet returns the default and GetErr returns `e`; GetOk terminates with its fixed diagnostic and Expect with the caller's message |
| `Results.MoveThenLeaveScopeAsWritten` | result.cpp:108-124 | with the move constructor as written, the destination is destroyed once but the source is destroyed twice: the first teardown is sound, the second runs on storage that holds no live payload |
| `Results.MoveThenLeaveScope` | result.cpp:108-124 | with the corrected move constructor, the destination (holding the source's old variant and payload) and the source are each destroyed exactly once, each by the destructor of the type its discriminant names, on storage holding exactly its own payload |

## Findings

| source | as written | input that shows it | evidently intended | confidence | as-written member | corrected member |
|---|---|---|---|---|---|---|
| result.cpp:115 | the move constructor calls `result.~Result()` on its source right after moving the payload out | `Result<T, E> b(std::move(a));` for any live `a`: when `a`'s scope ends its destructor runs a second time, on a payload whose lifetime has already ended (shown by `Results.MoveThenLeaveScopeAsWritten`) | leave the moved-from source live, so that its own destructor tears it down once | not executed; high (a double destructor call is undefined behaviour for every payload type, and a double free for a payload type whose move is a copy) | `Results.Result.MoveAsWritten` | `Results.Result.Move` |

## Left out

- Raw storage layout: the `aligned_storage_t` size and alignment (`_size`, `_align`), placement `new` and the `reinterpret_cast` accessors. Storage is modelled as the live payload, if any. The model does not capture that `_align` takes the alignment of the larger type rather than the largest alignment.
- The write to `std::cerr` and the call to `std::terminate()` in `ErrorTerminate`. They are modelled as the returned value `Terminates(text)`. There is no stream and no process.
- Compile-time restrictions. `enable_if_t` removes `GetOk` when `ok_t` is `None`, and removes `TryGet` when the type of its default is `None` (TryGet's own template parameter, deduced from the default, not `ok_t`); in the model both exist for every ok type. The same applies to the `static_assert` discussed above, and to `Expect` not compiling for ok types that have no common type with `std::nullptr_t` (arithmetic, `bool`, enumeration and floating-point types, and class types not implicitly constructible from `std::nullptr_t`).
- `operator bool` is not `const` in the code, so it cannot be called on a `const Result`. The model's `ToBool` has no such restriction.
- `const_cast`, `std::move` of const references, and the split between lvalue and rvalue overloads of the wrapper constructors. Each of them only copies or moves a value, and in the model both are the same value.
- Results.Result.TryGet: the model gives the default the ok type. In the code TryGet is a function template whose type parameter is deduced from the default, so it returns the default's type and converts the success payload to that type (a `Result<double, E>` holding 3.5 gives `TryGet(0) == 3`; on a `Result<None, E>`, `TryGet(false)` compiles and gives `Ok() != nullptr` on a success). That conversion is not modelled.
- Results.Result.Expect: nothing in its contract excludes the ok type `None`. On a `Result<None, E>` holding a non-null pointer it returns that pointer, whereas the code returns `nullptr`; that instantiation is modelled by `Results.ExpectNone` instead.
- The `const char*` message of `Expect` and `ErrorTerminate` is modelled as a character string without NUL characters. A null `msg` (undefined behaviour when written to the stream) and the truncation of the output at an embedded NUL are not modelled.
- Results.Result.MoveAsWritten: the move out of the source (result.cpp:112, 114) is modelled as leaving the source's payload value as it was, so the destructor call at result.cpp:115 is recorded as running on the value from before the move. That is exact only for payload types whose move is a copy; for others (a `std::string`, say) the destructor runs on a moved-from value the model does not track.
- Results.Result.Move: the value of a moved-from payload is left unspecified, because C++ leaves it unspecified; the model only promises that the source stays live with a payload of the same type.
- C++ object lifetimes beyond the ghost `teardowns` log: the model does not track payload objects other than through a Result's storage.
- Concurrency: the code has no synchronisation and the model is sequential.

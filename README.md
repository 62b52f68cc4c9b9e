# Web calculator: arithmetic service and request dispatch

This project models the two pieces of logic of a single-page Flask calculator:

- `app/calculadora.py`, the arithmetic service: `sumar`, `restar`,
  `multiplicar` and `dividir`, the last of which raises `ZeroDivisionError`
  when the divisor is zero (module `Calculadora`, file `calculadora.dfy`).
- `index` in `app/app.py`, the handler of the calculator page: the method
  gate (only a POST computes anything), the reading and parsing of the form
  fields `num1`, `num2` and `operacion` in that order, the if/elif chain that
  dispatches on the operation tag by exact string match, and the `except`
  clauses that turn `ValueError` and `ZeroDivisionError` into the fixed
  Spanish messages (module `App`, file `app.dfy`).

Both are pure. `resultado`, the value handed to the page template, is modelled
as Python's three possibilities: `None` (`NoResult`), a float (`Number`) or a
message string (`Text`). The body of the `try` block (`TryBlock`) ends either
by assigning `resultado` or by raising one of `ValueError`,
`ZeroDivisionError` or `KeyError`; `Index` maps the first two to their
messages exactly as the handlers do. A missing form field raises a `KeyError`
that no handler catches: it escapes `index` (Flask answers "400 Bad Request"
outside debug mode). The model keeps that case as `Response.BadRequest(field)`
instead of forbidding it, and keeps the order in which fields are read (an unparsable `num1` gives the
invalid-numbers message even when `num2` or `operacion` is absent).

Python's `float()` applied to a form field is a parameter of `Index`,
`parseFloat: string -> Option<real>`, left uninterpreted: `None` stands for the
`ValueError` it raises. Numbers are Dafny `real`s.

Where the repository's tests disagree with `app/app.py`, the model follows
the code: `tests/test_app.py` posts to a `/calculate` route and expects
`"Error: Datos de entrada inválidos"` for an unknown tag and for unparsable
operands, but `app/app.py` has only the `/` route and produces
`"Operación no válida"` and `"Error: Introduce números válidos"`. No bound on
operand magnitude is checked in `app/app.py`; the model accepts any parsed
operand.

## Model

| member | source | states |
|---|---|---|
| Calculadora.Sumar | app/calculadora.py:10-21 | the sum less either operand gives the other operand |
| Calculadora.Restar | app/calculadora.py:24-35 | the difference plus the subtrahend gives the minuend |
| Calculadora.Multiplicar | app/calculadora.py:38-49 | the product is zero iff a factor is zero; dividing it by a nonzero factor gives the other factor |
| Calculadora.Dividir | app/calculadora.py:52-68 | fails with ZeroDivisionError iff the divisor is exactly zero; otherwise quotient times divisor is the dividend |
| Calculadora.RestarUndoesSumar | app/calculadora.py:21 | over exact reals, restar undoes sumar |
| Calculadora.SumarUndoesRestar | app/calculadora.py:35 | over exact reals, sumar undoes restar |
| Calculadora.DividirUndoesMultiplicar | app/calculadora.py:49 | over exact reals, dividing a product by a nonzero factor succeeds and gives the other factor |
| Calculadora.MultiplicarUndoesDividir | app/calculadora.py:66-68 | over exact reals, dividir(a, b) yields q iff b is nonzero and q * b == a: the quotient is unique |
| Calculadora.NoZeroTolerance | app/calculadora.py:66 | the zero test is exact equality: every nonzero divisor yields a quotient, so below any positive tolerance some divisor still does |
| Calculadora.ZeroDivisorOnlyFailsDividir | app/calculadora.py:21-68 | a zero second operand makes only dividir fail; sumar, restar and multiplicar still give a value |
| App.Dispatch | app/app.py:35-44 | the if/elif chain raises (ZeroDivisionError) iff the tag is "dividir" and the divisor is zero; assigns the invalid-operation text iff the tag is none of the four; otherwise assigns a number |
| App.TryBlock | app/app.py:30-44 | the try body either assigns a non-None resultado or raises; a KeyError names a field absent from the form, and none is raised when all three fields are present |
| App.Index | app/app.py:15-50 | a non-POST renders None; any message shown is one of the three fixed strings; the KeyError escapes only for a POST missing a field |
| App.NonPostIgnoresForm | app/app.py:28-29 | a non-POST request renders None whatever the form and the parser: nothing is parsed |
| App.UnparsableOperandBeforeTag | app/app.py:31-33 | "Error: Introduce números válidos" is shown iff a POST's num1 is present and fails to parse, or num1 parses and num2 is present and fails to parse; the tag is never consulted, even when absent |
| App.KnownTagsDispatch | app/app.py:35-42 | with both operands parsed, each of the four tags shows the value of the arithmetic function of the same name |
| App.UnknownTagIff | app/app.py:43-44 | with both operands parsed, "Operación no válida" is shown iff the tag is none of the four |
| App.DivisionByZeroIff | app/app.py:41-48 | "Error: No se puede dividir por cero" is shown iff POST, all fields present, both parse, tag "dividir" and divisor zero |
| App.ZeroDivisorOtherTags | app/app.py:35-40 | a zero divisor with "sumar", "restar" or "multiplicar" shows a number, not an error |
| App.PostWithFieldsOutcomes | app/app.py:30-48 | a POST with the three fields renders the page with a number or exactly one of the three fixed messages |
| App.MissingFieldIff | app/app.py:31-33 | a POST ends in the uncaught KeyError iff a field is missing at the moment the handler reads it |
| App.OtherFieldsIgnored | app/app.py:31-33 | form fields other than num1, num2 and operacion do not affect the response |

## Left out

- Flask plumbing: route registration, the `request` global, `render_template`
  and the HTML page, `app.run` (app/app.py:9-12, 50, 53-54). The method and the
  form are parameters; the response is the value of `resultado` (or the escaping KeyError).
- Python's `float()` string grammar (whitespace, underscores, exponents,
  `"inf"`, `"nan"`): it is the uninterpreted parameter `parseFloat`.
- IEEE-754 doubles: rounding, overflow to infinity, NaN, and `-0.0` (which
  Python's `b == 0` also treats as zero) are not represented; operands and
  results are exact reals.
- Calculadora.RestarUndoesSumar, Calculadora.SumarUndoesRestar,
  Calculadora.DividirUndoesMultiplicar, Calculadora.MultiplicarUndoesDividir
  and the contracts of Calculadora.Sumar, Calculadora.Restar,
  Calculadora.Multiplicar and Calculadora.Dividir are exact-real laws that
  the program's doubles do not always satisfy: in IEEE-754 arithmetic
  `restar(sumar(0.1, 0.2), 0.2)` is `0.10000000000000003`, not `0.1`.
- How Flask answers the escaping KeyError: "400 Bad Request" normally, but
  with `debug=True` (app/app.py:54) the error reaches the debugger page; the
  model stops at `BadRequest(field)`, the KeyError leaving `index`.
- The rendering of a float on the page (Python's `str(float)`, such as
  `5.0`), which happens in the template.
- CSRF protection, the rate limiter and the `/calculate` route, which the
  tests use but `app/app.py` does not contain.
- The browser-driven acceptance tests (tests/test_acceptance_app.py).

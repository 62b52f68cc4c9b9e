/** The request handler of the calculator page (`index`, app/app.py).

    A request is its method and its form fields; the page shows `resultado`,
    which is Python's None, a float, or a fixed message string. For a POST the
    handler reads and parses `num1`, then reads and parses `num2`, then reads
    `operacion`, dispatches on the tag by exact string match, and maps the
    exceptions of that block to messages: ValueError (an operand that does not
    parse) and ZeroDivisionError (from `dividir`). A missing form field raises
    a KeyError that no handler catches, so it escapes `index` (outside debug
    mode the web framework answers it with "400 Bad Request").

    Python's `float()` on strings is the parameter `parseFloat`, left
    uninterpreted: `None` stands for the ValueError it raises. Its values are
    reals, so NaN and the infinities are not represented. */
module App {

  import Calculadora

  datatype Option<+T> = None | Some(value: T)

  /** The string-to-number conversion applied to each operand field. */
  type FloatParser = string -> Option<real>

  /** Form fields as submitted: field name to the first value submitted for
      it (what indexing the request's form returns), as a raw string. */
  type Form = map<string, string>

  const InvalidOperationText: string := "Operación no válida"
  const InvalidNumbersText: string := "Error: Introduce números válidos"
  const DivisionByZeroText: string := "Error: No se puede dividir por cero"

  /** The value of `resultado` handed to the page template. */
  datatype Resultado = NoResult | Number(value: real) | Text(message: string)

  /** The exceptions the body of the `try` block can raise. */
  datatype Exception = ValueError | ZeroDivisionError | KeyError(key: string)

  /** How the body of the `try` block ends: by assigning `resultado` or by
      raising. */
  datatype Attempt = Assigned(resultado: Resultado) | Raised(exception: Exception)

  /** What the request gets: the page rendered with `resultado`, or the
      KeyError for the field `missing` escaping `index`. */
  datatype Response = Page(resultado: Resultado) | BadRequest(missing: string)

  /** The four operation tags, matched by exact string equality. */
  predicate IsKnownTag(operacion: string)
  {
    operacion == "sumar" || operacion == "restar" || operacion == "multiplicar" || operacion == "dividir"
  }

  /** All three fields the handler reads are present. */
  predicate HasFields(form: Form)
  {
    "num1" in form && "num2" in form && "operacion" in form
  }

  /** The if/elif chain on the operation tag, on two parsed operands. */
  function Dispatch(operacion: string, num1: real, num2: real): (r: Attempt)
    ensures r.Raised? <==> operacion == "dividir" && num2 == 0.0
    ensures r.Raised? ==> r.exception == ZeroDivisionError
    ensures r.Assigned? && r.resultado.Text? <==> !IsKnownTag(operacion)
    ensures r.Assigned? ==> r.resultado.Number? || r.resultado == Text(InvalidOperationText)
  {
    if operacion == "sumar" then
      Assigned(Number(Calculadora.Sumar(num1, num2)))
    else if operacion == "restar" then
      Assigned(Number(Calculadora.Restar(num1, num2)))
    else if operacion == "multiplicar" then
      Assigned(Number(Calculadora.Multiplicar(num1, num2)))
    else if operacion == "dividir" then
      match Calculadora.Dividir(num1, num2)
      case Quotient(q) => Assigned(Number(q))
      case ZeroDivisionError => Raised(ZeroDivisionError)
    else
      Assigned(Text(InvalidOperationText))
  }

  /** The body of the `try` block: read and parse `num1`, read and parse
      `num2`, read `operacion`, dispatch. Each step runs only if the
      previous ones did not raise. */
  function TryBlock(form: Form, parseFloat: FloatParser): (r: Attempt)
    ensures r.Assigned? ==> r.resultado != NoResult
    ensures r.Raised? && r.exception.KeyError? ==> r.exception.key !in form
    ensures HasFields(form) ==> !(r.Raised? && r.exception.KeyError?)
  {
    if "num1" !in form then Raised(KeyError("num1"))
    else match parseFloat(form["num1"])
      case None => Raised(ValueError)
      case Some(num1) =>
        if "num2" !in form then Raised(KeyError("num2"))
        else match parseFloat(form["num2"])
          case None => Raised(ValueError)
          case Some(num2) =>
            if "operacion" !in form then Raised(KeyError("operacion"))
            else Dispatch(form["operacion"], num1, num2)
  }

  /** `index`: the method gate, the `try` block and its two `except`
      clauses. */
  function Index(httpMethod: string, form: Form, parseFloat: FloatParser): (r: Response)
    ensures httpMethod != "POST" ==> r == Page(NoResult)
    ensures r.Page? && r.resultado.Text? ==>
              r.resultado.message in {InvalidOperationText, InvalidNumbersText, DivisionByZeroText}
    ensures r.BadRequest? ==> httpMethod == "POST" && r.missing !in form
  {
    if httpMethod != "POST" then Page(NoResult)
    else match TryBlock(form, parseFloat)
      case Assigned(resultado) => Page(resultado)
      case Raised(ValueError) => Page(Text(InvalidNumbersText))
      case Raised(ZeroDivisionError) => Page(Text(DivisionByZeroText))
      case Raised(KeyError(key)) => BadRequest(key)
  }

  /** A request that is not a POST renders no result, whatever its form and
      however operands would parse: nothing is parsed or computed. */
  lemma NonPostIgnoresForm(httpMethod: string, form1: Form, form2: Form, parse1: FloatParser, parse2: FloatParser)
    requires httpMethod != "POST"
    ensures Index(httpMethod, form1, parse1) == Index(httpMethod, form2, parse2) == Page(NoResult)
  {
  }

  /** The invalid-numbers message is shown exactly when an operand that the
      handler reads does not parse, whatever the tag is, even an unknown or
      absent one: both operands are parsed before the tag is read. If `num1`
      fails, `num2` is not even needed. */
  lemma UnparsableOperandBeforeTag(form: Form, parseFloat: FloatParser)
    ensures Index("POST", form, parseFloat) == Page(Text(InvalidNumbersText))
            <==> && "num1" in form
                 && (parseFloat(form["num1"]).None? || ("num2" in form && parseFloat(form["num2"]).None?))
  {
  }

  /** With both operands parsed, each of the four tags runs the arithmetic
      function of the same name and the page shows its value. */
  lemma KnownTagsDispatch(form: Form, parseFloat: FloatParser, a: real, b: real)
    requires HasFields(form)
    requires parseFloat(form["num1"]) == Some(a) && parseFloat(form["num2"]) == Some(b)
    ensures form["operacion"] == "sumar" ==>
              Index("POST", form, parseFloat) == Page(Number(Calculadora.Sumar(a, b)))
    ensures form["operacion"] == "restar" ==>
              Index("POST", form, parseFloat) == Page(Number(Calculadora.Restar(a, b)))
    ensures form["operacion"] == "multiplicar" ==>
              Index("POST", form, parseFloat) == Page(Number(Calculadora.Multiplicar(a, b)))
    ensures form["operacion"] == "dividir" && b != 0.0 ==>
              Index("POST", form, parseFloat) == Page(Number(a / b))
  {
  }

  /** With both operands parsed, the invalid-operation text is shown exactly
      when the tag is not one of the four (so no arithmetic was done). */
  lemma UnknownTagIff(form: Form, parseFloat: FloatParser)
    requires HasFields(form)
    requires parseFloat(form["num1"]).Some? && parseFloat(form["num2"]).Some?
    ensures Index("POST", form, parseFloat) == Page(Text(InvalidOperationText))
            <==> !IsKnownTag(form["operacion"])
  {
  }

  /** The division-by-zero message appears exactly for a POST whose three
      fields are present, whose operands both parse, whose tag is "dividir"
      and whose divisor parses to zero. */
  lemma DivisionByZeroIff(httpMethod: string, form: Form, parseFloat: FloatParser)
    ensures Index(httpMethod, form, parseFloat) == Page(Text(DivisionByZeroText))
            <==> && httpMethod == "POST"
                 && HasFields(form)
                 && parseFloat(form["num1"]).Some?
                 && parseFloat(form["num2"]) == Some(0.0)
                 && form["operacion"] == "dividir"
  {
  }

  /** A zero divisor is an error only for "dividir": the other three tags
      give a number. */
  lemma ZeroDivisorOtherTags(form: Form, parseFloat: FloatParser)
    requires HasFields(form)
    requires parseFloat(form["num1"]).Some? && parseFloat(form["num2"]) == Some(0.0)
    requires form["operacion"] in {"sumar", "restar", "multiplicar"}
    ensures Index("POST", form, parseFloat).Page?
    ensures Index("POST", form, parseFloat).resultado.Number?
  {
  }

  /** A POST carrying the three fields always renders the page, and the page
      shows a number or one of the three fixed messages. */
  lemma PostWithFieldsOutcomes(form: Form, parseFloat: FloatParser)
    requires HasFields(form)
    ensures Index("POST", form, parseFloat).Page?
    ensures var res := Index("POST", form, parseFloat).resultado;
            || res.Number?
            || res == Text(InvalidOperationText)
            || res == Text(InvalidNumbersText)
            || res == Text(DivisionByZeroText)
  {
  }

  /** A POST ends in the uncaught KeyError exactly when a field the handler
      gets to is missing: `num1` always, `num2` once `num1` parsed,
      `operacion` once both operands parsed. */
  lemma MissingFieldIff(form: Form, parseFloat: FloatParser)
    ensures Index("POST", form, parseFloat).BadRequest?
            <==> || "num1" !in form
                 || (parseFloat(form["num1"]).Some? && "num2" !in form)
                 || (parseFloat(form["num1"]).Some? && parseFloat(form["num2"]).Some? && "operacion" !in form)
  {
  }

  /** Fields other than the three the handler reads do not change the
      response. */
  lemma OtherFieldsIgnored(httpMethod: string, form: Form, parseFloat: FloatParser, key: string, v: string)
    requires key != "num1" && key != "num2" && key != "operacion"
    ensures Index(httpMethod, form[key := v], parseFloat) == Index(httpMethod, form, parseFloat)
  {
  }
}

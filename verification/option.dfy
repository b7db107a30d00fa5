/** Option types: classes built at run time whose instances hold one value
    taken from a fixed tuple of options (src/moebius/option.py). */
module OptionTypes {
  import opened Wrappers

  /** The values an option class is built from and holds:
      - `Text`: a string, which `create_option` treats as one option;
      - `Atom`: any value that is not iterable;
      - `Items`: any other iterable, given by its iteration order. */
  datatype Value = Text(s: string) | Atom(n: int) | Items(elements: seq<Value>)

  /** A class made by `create_option`: its name and its option tuple. */
  datatype OptionClass = OptionClass(name: string, options: seq<Value>)

  /** `KeyError`: the value is not one of the options. */
  datatype OptionError = KeyError(value: Value)

  /** `create_option(typename, options)`: a string or a non-iterable becomes
      the single option; any other iterable becomes the tuple of its
      elements, in iteration order. */
  function CreateOption(typename: string, options: Value): (cls: OptionClass)
    ensures cls.name == typename
    ensures options.Items? ==> cls.options == options.elements
    ensures !options.Items? ==> cls.options == [options]
  {
    match options
    case Items(elements) => OptionClass(typename, elements)
    case _ => OptionClass(typename, [options])
  }

  /** An instance of an option class: the class and the value it holds. */
  datatype OptionValue = OptionValue(cls: OptionClass, value: Value)

  /** An instance the constructor let through. */
  predicate Held(o: OptionValue) {
    o.value in o.cls.options
  }

  /** `cls(value)`: `KeyError` unless the value is one of the options. */
  function New(cls: OptionClass, value: Value): (r: Result<OptionValue, OptionError>)
    ensures r.Ok? <==> value in cls.options
    ensures r.Err? ==> r.error == KeyError(value)
    ensures r.Ok? ==> r.value.cls == cls && r.value.value == value && Held(r.value)
  {
    if value in cls.options then Ok(OptionValue(cls, value)) else Err(KeyError(value))
  }

  /** `options`, read from the class or from an instance: the class's tuple. */
  function Options(o: OptionValue): (opts: seq<Value>)
    ensures Held(o) ==> o.value in opts
  {
    o.cls.options
  }

  /** `update(value)`: a new instance of the same class, validated by the
      constructor. The receiver is a value and stays as it was. */
  function Update(o: OptionValue, value: Value): (r: Result<OptionValue, OptionError>)
    ensures r.Ok? <==> value in Options(o)
    ensures r.Err? ==> r.error == KeyError(value)
    ensures r.Ok? ==> r.value.cls == o.cls && r.value.value == value
  {
    New(o.cls, value)
  }

  // ---------------------------------------------------------------------------
  // Properties

  /** The `value` of an instance is the value it was constructed with, and
      every option of a class makes an instance. */
  lemma ConstructedValue(cls: OptionClass, i: nat)
    requires i < |cls.options|
    ensures New(cls, cls.options[i]).Ok?
    ensures New(cls, cls.options[i]).value.value == cls.options[i]
  {
  }

  /** Updating an instance with its own value gives back an equal instance,
      and two updates in a row are the last one. */
  lemma UpdateRoundTrip(o: OptionValue, v: Value, w: Value)
    requires Held(o)
    requires v in Options(o)
    ensures Update(o, o.value) == Ok(o)
    ensures Update(Update(o, v).value, w) == Update(o, w)
  {
  }

  /** A class made from a single string accepts exactly that string; in
      particular it does not accept the string's characters. */
  lemma StringIsOneOption(typename: string, s: string, v: Value)
    ensures New(CreateOption(typename, Text(s)), v).Ok? <==> v == Text(s)
  {
  }

  /** A class made from an iterable accepts exactly its elements, whatever
      their position. */
  lemma IterableOptions(typename: string, elements: seq<Value>, v: Value)
    ensures New(CreateOption(typename, Items(elements)), v).Ok? <==>
              exists i :: 0 <= i < |elements| && elements[i] == v
  {
  }
}

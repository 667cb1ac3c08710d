/** The EXPLOSION executor script: #EXPLOSION(power, location) or
    #EXPLOSION(power, x, y, z) makes an explosion of the given power, clamped
    to [0, 20], at a location or at the coordinates in the player's world. The
    one host call it makes, World.createExplosion, is returned as a record. */
module ExplosionExecutor {
  import opened Wrappers
  import opened Values

  /** A JavaScript number: a real value or NaN (infinities and -0 are not modelled). */
  datatype JsNumber = Finite(x: real) | NaN

  /** An argument is a number or a boolean, or null (None). */
  predicate Numeric(arg: Option<Value>)
  {
    arg.None? || arg.value.Num? || arg.value.Bool?
  }

  /** JavaScript's ToNumber for the arguments a script passes here (None is
      null): null as 0, numbers as they are, true and false as 1 and 0,
      everything else NaN. */
  function ToNumber(arg: Option<Value>): (r: JsNumber)
    ensures r.NaN? <==> !Numeric(arg)
    ensures arg.None? ==> r == Finite(0.0)
    ensures arg.Some? && arg.value.Num? ==> r.x == arg.value.n
    ensures arg.Some? && arg.value.Bool? ==> r.x == if arg.value.b then 1.0 else 0.0
  {
    match arg
    case None => Finite(0.0)
    case Some(Num(n)) => Finite(n)
    case Some(Bool(b)) => Finite(if b then 1.0 else 0.0)
    case Some(_) => NaN
  }

  /** Math.min of two numbers. */
  function MathMin(a: JsNumber, b: JsNumber): (r: JsNumber)
    ensures r.NaN? <==> a.NaN? || b.NaN?
    ensures r.Finite? ==> r.x <= a.x && r.x <= b.x && (r.x == a.x || r.x == b.x)
  {
    if a.NaN? || b.NaN? then NaN
    else if a.x <= b.x then a else b
  }

  /** Math.max of two numbers. */
  function MathMax(a: JsNumber, b: JsNumber): (r: JsNumber)
    ensures r.NaN? <==> a.NaN? || b.NaN?
    ensures r.Finite? ==> r.x >= a.x && r.x >= b.x && (r.x == a.x || r.x == b.x)
  {
    if a.NaN? || b.NaN? then NaN
    else if a.x >= b.x then a else b
  }

  /** clamp(number, min, max) of the script. */
  function Clamp(number: JsNumber, min: JsNumber, max: JsNumber): (r: JsNumber)
    ensures r.NaN? <==> number.NaN? || min.NaN? || max.NaN?
    ensures r.Finite? && min.x <= max.x ==> min.x <= r.x <= max.x
    ensures r.Finite? && min.x <= number.x <= max.x ==> r == number
  {
    MathMax(min, MathMin(number, max))
  }

  /** With min <= max, clamp keeps a number inside [min, max] and moves one
      outside to the nearer end; the result always lies in [min, max]. */
  lemma ClampCases(n: real, min: real, max: real)
    requires min <= max
    ensures min <= n <= max ==> Clamp(Finite(n), Finite(min), Finite(max)) == Finite(n)
    ensures n < min ==> Clamp(Finite(n), Finite(min), Finite(max)) == Finite(min)
    ensures n > max ==> Clamp(Finite(n), Finite(min), Finite(max)) == Finite(max)
    ensures Clamp(Finite(n), Finite(min), Finite(max)).Finite?
    ensures min <= Clamp(Finite(n), Finite(min), Finite(max)).x <= max
  {
  }

  /** A NaN number stays NaN through clamp. */
  lemma ClampNaN(min: JsNumber, max: JsNumber)
    ensures Clamp(NaN, min, max) == NaN
  {
  }

  const MinPower: real := 0.0
  const MaxPower: real := 20.0

  /** A place in a world. */
  datatype Place = Place(world: WorldId, x: JsNumber, y: JsNumber, z: JsNumber)

  /** The host call World.createExplosion(location, power), on the location's world. */
  datatype WorldCall = CreateExplosion(world: WorldId, at: Place, power: JsNumber)

  /** A normal completion: the world call made and the value returned (null). */
  datatype Completion = Completion(call: WorldCall, returned: Option<Value>)

  datatype ScriptError =
    | InvalidParameters  // "Invalid parameters. Need [Power<number>, Location<location or number number number>]"
    | NoPlayer           // player.getWorld() with no player bound
    | NotALocation       // location.getWorld() on null or on something that is not a Location

  /** An argument that is a Location. */
  predicate IsLocation(arg: Option<Value>)
  {
    arg.Some? && arg.value.Location?
  }

  /** The place of a Location argument. */
  function PlaceOf(arg: Option<Value>): Place
    requires IsLocation(arg)
  {
    Place(arg.value.world, Finite(arg.value.x), Finite(arg.value.y), Finite(arg.value.z))
  }

  /** EXPLOSION(args), where a None argument is null, with the world of the
      script's player (if any) passed in. */
  function Explosion(args: seq<Option<Value>>, playerWorld: Option<WorldId>): (r: Result<Completion, ScriptError>)
    ensures r == Err(InvalidParameters) <==> |args| != 2 && |args| != 4
    ensures r.Ok? ==> r.value.returned == None
    ensures r.Ok? ==> r.value.call.world == r.value.call.at.world
    ensures r.Ok? ==> r.value.call.power == Clamp(ToNumber(args[0]), Finite(MinPower), Finite(MaxPower))
    ensures |args| == 2 ==> (r.Ok? <==> IsLocation(args[1]))
    ensures |args| == 2 && r.Ok? ==> r.value.call.at == PlaceOf(args[1])
    ensures |args| == 4 ==> (r.Ok? <==> playerWorld.Some?)
    ensures |args| == 4 && r.Ok? ==>
      r.value.call.at == Place(playerWorld.value, ToNumber(args[1]), ToNumber(args[2]), ToNumber(args[3]))
  {
    if |args| == 2 || |args| == 4 then
      var power := args[0];
      var location :=
        if |args| == 2 then
          if IsLocation(args[1]) then Ok(PlaceOf(args[1])) else Err(NotALocation)
        else
          if playerWorld.Some?
          then Ok(Place(playerWorld.value, ToNumber(args[1]), ToNumber(args[2]), ToNumber(args[3])))
          else Err(NoPlayer);
      var clamped := Clamp(ToNumber(power), Finite(MinPower), Finite(MaxPower));
      match location
      case Ok(at) => Ok(Completion(CreateExplosion(at.world, at, clamped), None))
      case Err(err) => Err(err)
    else
      Err(InvalidParameters)
  }

  /** The power handed to the world lies in [0, 20] whenever the power
      argument is a number, a boolean or null (a null power gives 0), and is
      NaN otherwise. */
  lemma ExplosionPowerInRange(args: seq<Option<Value>>, playerWorld: Option<WorldId>)
    requires Explosion(args, playerWorld).Ok?
    ensures Numeric(args[0]) ==>
      var p := Explosion(args, playerWorld).value.call.power;
      p.Finite? && MinPower <= p.x <= MaxPower
    ensures args[0].None? ==> Explosion(args, playerWorld).value.call.power == Finite(MinPower)
    ensures !Numeric(args[0]) ==> Explosion(args, playerWorld).value.call.power == NaN
  {
    match ToNumber(args[0])
    case Finite(n) => ClampCases(n, MinPower, MaxPower);
    case NaN => ClampNaN(Finite(MinPower), Finite(MaxPower));
  }
}

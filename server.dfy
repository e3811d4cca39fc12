/** The metric engine of server.py and the response record that
    `handle_client` assembles from it.

    Arithmetic is over Dafny's exact `real`: IEEE-754 rounding of Python's
    `float` is abstracted away, so every identity below holds exactly here and
    only up to rounding in the source. */
module Server {
  import opened Common

  /** The decoded request, one field per profile key. All numbers are
      floats on the wire (the client sends `float(token)`); the gender is
      whatever string the client sent. */
  datatype Profile = Profile(height: real, weight: real, gender: string, activityLevel: real, age: real)

  datatype ImcStatus = Underweight | NormalWeight | Overweight | ObesityGrade1 | ObesityGrade2 | ObesityGrade3

  datatype Nutrients = Nutrients(carbohydrates: real, proteins: real, fats: real)

  /** The five-field response of `handle_client`. */
  datatype Response = Response(imc: real, imcStatus: ImcStatus, bmr: real, calorieIntake: real, nutrients: Nutrients)

  /** The Python exceptions a request can raise; each one ends the worker
      before any response is written. */
  datatype Fault = KeyError(key: string) | TypeError | AttributeError | ZeroDivisionError

  /** The label the source returns for each status. */
  function Label(s: ImcStatus): string {
    match s
    case Underweight => "Underweight"
    case NormalWeight => "Normal weight"
    case Overweight => "Overweight"
    case ObesityGrade1 => "Obesity Grade 1"
    case ObesityGrade2 => "Obesity Grade 2"
    case ObesityGrade3 => "Obesity Grade 3"
  }

  /** Position of a status in the order of the thresholds. */
  function Rank(s: ImcStatus): nat {
    match s
    case Underweight => 0
    case NormalWeight => 1
    case Overweight => 2
    case ObesityGrade1 => 3
    case ObesityGrade2 => 4
    case ObesityGrade3 => 5
  }

  /** The six labels are pairwise distinct, so a label names one status. */
  lemma LabelInjective(s: ImcStatus, t: ImcStatus)
    ensures Label(s) == Label(t) <==> s == t
  {
  }

  lemma SquarePositive(h: real)
    requires h != 0.0
    ensures h * h > 0.0
  {
  }

  /** `generate_imc`: weight over height squared; a zero height raises
      `ZeroDivisionError`. */
  function GenerateImc(p: Profile): (r: Result<real, Fault>)
    ensures r.Failure? <==> p.height == 0.0
    ensures r.Failure? ==> r.error == ZeroDivisionError
    ensures r.Success? ==> r.value * (p.height * p.height) == p.weight
  {
    if p.height == 0.0 then Failure(ZeroDivisionError)
    else
      SquarePositive(p.height);
      Success(p.weight / (p.height * p.height))
  }

  /** The threshold chain of `get_imc_status`, applied to an imc value. */
  function ImcStatusOf(imc: real): (s: ImcStatus)
    ensures s == Underweight <==> imc < 18.5
    ensures s == NormalWeight <==> 18.5 <= imc < 25.0
    ensures s == Overweight <==> 25.0 <= imc < 30.0
    ensures s == ObesityGrade1 <==> 30.0 <= imc < 35.0
    ensures s == ObesityGrade2 <==> 35.0 <= imc < 40.0
    ensures s == ObesityGrade3 <==> 40.0 <= imc
  {
    if imc < 18.5 then Underweight
    else if 18.5 <= imc < 25.0 then NormalWeight
    else if 25.0 <= imc < 30.0 then Overweight
    else if 30.0 <= imc < 35.0 then ObesityGrade1
    else if 35.0 <= imc < 40.0 then ObesityGrade2
    else ObesityGrade3
  }

  /** `get_imc_status`: the status of the imc of the same profile. */
  function GetImcStatus(p: Profile): (r: Result<ImcStatus, Fault>)
    ensures r.Failure? <==> GenerateImc(p).Failure?
    ensures r.Success? ==> r.value == ImcStatusOf(GenerateImc(p).value)
  {
    match GenerateImc(p)
    case Success(imc) => Success(ImcStatusOf(imc))
    case Failure(e) => Failure(e)
  }

  /** A larger imc never yields an earlier category. */
  lemma ImcStatusMonotone(a: real, b: real)
    requires a <= b
    ensures Rank(ImcStatusOf(a)) <= Rank(ImcStatusOf(b))
  {
  }

  /** Every lower bound is inclusive. */
  lemma ImcStatusBoundaries()
    ensures ImcStatusOf(18.5) == NormalWeight
    ensures ImcStatusOf(25.0) == Overweight
    ensures ImcStatusOf(30.0) == ObesityGrade1
    ensures ImcStatusOf(35.0) == ObesityGrade2
    ensures ImcStatusOf(40.0) == ObesityGrade3
  {
  }

  /** The male branch of `generate_bmr` is taken iff `gender.lower() == 'm'`. */
  predicate IsMale(gender: string) {
    Lower(gender) == "m"
  }

  lemma IsMaleTokens(gender: string)
    ensures IsMale(gender) <==> gender == "m" || gender == "M"
  {
  }

  /** `generate_bmr`: the Mifflin-St Jeor equation with the height turned
      from metres into centimetres. */
  function GenerateBmr(p: Profile): real {
    if IsMale(p.gender) then 10.0 * p.weight + 6.25 * p.height * 100.0 - 5.0 * p.age + 5.0
    else 10.0 * p.weight + 6.25 * p.height * 100.0 - 5.0 * p.age - 161.0
  }

  /** The equation in centimetres, with the two constants: +5 exactly for
      "m"/"M", -161 for every other gender string. */
  lemma BmrFormula(p: Profile)
    ensures GenerateBmr(p) == 10.0 * p.weight + 6.25 * (p.height * 100.0) - 5.0 * p.age
                              + (if p.gender in ["m", "M"] then 5.0 else -161.0)
  {
    IsMaleTokens(p.gender);
  }

  /** For otherwise identical profiles, the male BMR exceeds the BMR for any
      non-male gender string by 166. */
  lemma BmrGenderGap(p: Profile, other: string)
    requires p.gender in ["m", "M"] && !(other in ["m", "M"])
    ensures GenerateBmr(p) - GenerateBmr(p.(gender := other)) == 166.0
  {
    IsMaleTokens(p.gender);
    IsMaleTokens(other);
  }

  /** `generate_bmr` reads the activity level but does not depend on it. */
  lemma BmrIgnoresActivityLevel(p: Profile, level: real)
    ensures GenerateBmr(p.(activityLevel := level)) == GenerateBmr(p)
  {
  }

  /** BMR grows with weight and height and falls with age. */
  lemma BmrMonotone(p: Profile, q: Profile)
    requires p.gender == q.gender
    requires p.weight <= q.weight && p.height <= q.height && p.age >= q.age
    ensures GenerateBmr(p) <= GenerateBmr(q)
  {
  }

  /** `calculate_calorie_intake`: the BMR times the raw activity level. */
  function CalculateCalorieIntake(p: Profile): real {
    GenerateBmr(p) * p.activityLevel
  }

  /** The intake is linear in the activity level, with the BMR as slope and
      no factor table: doubling the level doubles the intake. */
  lemma CalorieIntakeLinear(p: Profile, a: real, b: real)
    ensures CalculateCalorieIntake(p.(activityLevel := a + b))
         == CalculateCalorieIntake(p.(activityLevel := a)) + CalculateCalorieIntake(p.(activityLevel := b))
    ensures CalculateCalorieIntake(p.(activityLevel := 1.0)) == GenerateBmr(p)
  {
  }

  /** `calculate_nutrients`: grams per day, all proportional to weight. */
  function CalculateNutrients(p: Profile): (n: Nutrients)
    ensures n.proteins == p.weight
    ensures n.carbohydrates == 3.0 * n.proteins && n.fats == 0.7 * n.proteins
  {
    Nutrients(p.weight * 3.0, p.weight * 1.0, p.weight * 0.7)
  }

  /** The request holds every key with a value of the type the engine
      operates on, and a height the imc can divide by. */
  predicate Accepts(data: map<string, Value>) {
    && "height" in data && "weight" in data && "gender" in data
    && "activityLevel" in data && "age" in data
    && data["height"].Num? && data["weight"].Num? && data["gender"].Str?
    && data["activityLevel"].Num? && data["age"].Num?
    && data["height"].x != 0.0
  }

  /** The profile of an accepted request. */
  function ProfileOf(data: map<string, Value>): Profile
    requires Accepts(data)
  {
    Profile(data["height"].x, data["weight"].x, data["gender"].s, data["activityLevel"].x, data["age"].x)
  }

  /** The body of `handle_client` between decoding and encoding: build the
      response dictionary field by field. The exception Python raises first
      is the one returned: `generate_imc` reads height and weight and divides;
      `generate_bmr` then reads the other three keys, calls `gender.lower()`
      and subtracts `5 * age`; `calculate_calorie_intake` multiplies by the
      activity level. */
  function HandleClient(data: map<string, Value>): (r: Result<Response, Fault>)
    ensures r.Success? <==> Accepts(data)
    ensures "height" !in data ==> r == Failure(KeyError("height"))
    ensures "height" in data && data["height"].Num? && data["height"].x == 0.0 && "weight" in data && data["weight"].Num?
      ==> r == Failure(ZeroDivisionError)
    ensures r.Success? ==>
      var p, resp := ProfileOf(data), r.value;
      && resp.imc * (p.height * p.height) == p.weight
      && resp.imcStatus == ImcStatusOf(resp.imc)
      && resp.bmr == GenerateBmr(p)
      && resp.calorieIntake == resp.bmr * p.activityLevel
      && resp.nutrients.carbohydrates == 3.0 * resp.nutrients.proteins
      && resp.nutrients == CalculateNutrients(p)
  {
    if "height" !in data then Failure(KeyError("height"))
    else if "weight" !in data then Failure(KeyError("weight"))
    else if !data["height"].Num? || !data["weight"].Num? then Failure(TypeError)
    else if data["height"].x == 0.0 then Failure(ZeroDivisionError)
    else if "gender" !in data then Failure(KeyError("gender"))
    else if "activityLevel" !in data then Failure(KeyError("activityLevel"))
    else if "age" !in data then Failure(KeyError("age"))
    else if !data["gender"].Str? then Failure(AttributeError)
    else if !data["age"].Num? then Failure(TypeError)
    else if !data["activityLevel"].Num? then Failure(TypeError)
    else
      var p := ProfileOf(data);
      var imc := GenerateImc(p).value;
      Success(Response(
        imc := imc,
        imcStatus := GetImcStatus(p).value,
        bmr := GenerateBmr(p),
        calorieIntake := CalculateCalorieIntake(p),
        nutrients := CalculateNutrients(p)))
  }

  /** Boundary sample: at height 1.70 m the weight 53.465 kg gives imc 18.5,
      the lowest "Normal weight" value; 53.4649 kg is "Underweight". */
  lemma ImcBoundarySample()
    ensures GenerateImc(Profile(1.70, 53.465, "M", 3.0, 20.0)) == Success(18.5)
    ensures GetImcStatus(Profile(1.70, 53.465, "M", 3.0, 20.0)) == Success(NormalWeight)
    ensures GetImcStatus(Profile(1.70, 53.4649, "M", 3.0, 20.0)) == Success(Underweight)
  {
  }

  /** Worked sample: 1.70 m, 70 kg, "M", level 3, age 20. */
  lemma MetricsSample()
    ensures GenerateBmr(Profile(1.70, 70.0, "M", 3.0, 20.0)) == 1667.5
    ensures CalculateCalorieIntake(Profile(1.70, 70.0, "M", 3.0, 20.0)) == 5002.5
    ensures CalculateNutrients(Profile(1.70, 70.0, "M", 3.0, 20.0)) == Nutrients(210.0, 70.0, 49.0)
  {
  }
}

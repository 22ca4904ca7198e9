/**
 * internal/handlers/repeater.go: the ingestion endpoint. A station POSTs its
 * readings as a form; the handler validates them, smooths UV and solar
 * radiation, assembles the upload record for Weather Underground, replaces the
 * latest-data snapshot and hands the record to the relay workers through a
 * queue of capacity 100.
 */
module Repeater {

  import opened Wrappers
  import opened Text
  import opened Form
  import Utils

  const QueueCapacity: nat := 100

  /** An incoming request: its method and its body, None when reading the body fails. */
  datatype Request = Request(httpMethod: string, body: Option<string>)

  /** The station credentials and software name from the environment. */
  datatype Env = Env(id: string, password: string, software: string)

  /** The floating-point formulas and formatting the model leaves uninterpreted. */
  datatype Numerics = Numerics(
    dewPoint: (real, real) -> real, // utils.CalculateDewPoint(tempC, humidity)
    fixed2: real -> string          // fmt.Sprintf("%.2f", x)
  )

  /** The five numeric readings the handler parses, in the order it parses them. */
  datatype Reading = Reading(uv: real, solarRadiation: real, tempF: real, humidity: real, windSpeed: real)

  /** An http.Error answer. */
  datatype Rejection = Rejection(status: int, message: string)

  /** What the handler answers: a status and text, or nothing yet while it waits on a full queue. */
  datatype Reply = Reply(status: int, text: string) | Blocked

  // ---------------------------------------------------------------------------
  // Validation
  // ---------------------------------------------------------------------------

  const NumericFields: seq<string> := ["uv", "solarradiation", "tempf", "humidity", "windspeedmph"]

  const FieldMessages: seq<string> := [
    "can't parse UV value\n",
    "can't parse solar radiation value\n",
    "can't parse temperature value\n",
    "can't parse humidity value\n",
    "can't parse wind speed value\n"
  ]

  /** strconv.ParseFloat of the i-th numeric field, a 400 naming that field when it fails. */
  function FieldValue(form: Values, i: nat): Result<real, Rejection>
    requires i < |NumericFields|
  {
    match ParseDecimal(Get(form, NumericFields[i]))
    case None => Err(Rejection(400, FieldMessages[i]))
    case Some(x) => Ok(x)
  }

  /** The five readings, parsed in order; the first failure is the answer. */
  function ParseReading(form: Values): Result<Reading, Rejection> {
    var uv :- FieldValue(form, 0);
    var solarRadiation :- FieldValue(form, 1);
    var tempF :- FieldValue(form, 2);
    var humidity :- FieldValue(form, 3);
    var windSpeed :- FieldValue(form, 4);
    Ok(Reading(uv, solarRadiation, tempF, humidity, windSpeed))
  }

  /** The method, then the body, then the form. */
  function ParseRequest(req: Request): Result<Values, Rejection> {
    if req.httpMethod != "POST" then Err(Rejection(405, "Invalid request method\n"))
    else if req.body.None? then Err(Rejection(400, "can't read body\n"))
    else
      match ParseQuery(req.body.value)
      case None => Err(Rejection(400, "can't parse body\n"))
      case Some(form) => Ok(form)
  }

  /** The whole validation of ConvertAndForward. */
  function Admit(req: Request): (r: Result<(Values, Reading), Rejection>)
    ensures r.Err? ==> (r.error.status == 405 <==> req.httpMethod != "POST")
    ensures r.Err? ==> r.error.status == 400 || r.error.status == 405
  {
    var form :- ParseRequest(req);
    var reading :- ParseReading(form);
    Ok((form, reading))
  }

  /** When the fields before the i-th parse and the i-th does not, the answer is the i-th field's 400. */
  lemma FirstBadFieldReported(form: Values, i: nat)
    requires i < |NumericFields|
    requires forall j :: 0 <= j < i ==> FieldValue(form, j).Ok?
    requires FieldValue(form, i).Err?
    ensures ParseReading(form) == Err(Rejection(400, FieldMessages[i]))
  {
    if i > 0 { assert FieldValue(form, 0).Ok?; }
    if i > 1 { assert FieldValue(form, 1).Ok?; }
    if i > 2 { assert FieldValue(form, 2).Ok?; }
    if i > 3 { assert FieldValue(form, 3).Ok?; }
  }

  /** The readings parse exactly when all five fields do. */
  lemma ReadingParsed(form: Values)
    ensures ParseReading(form).Ok? <==> forall j :: 0 <= j < |NumericFields| ==> FieldValue(form, j).Ok?
  {
    if ParseReading(form).Ok? {
      forall j | 0 <= j < |NumericFields| ensures FieldValue(form, j).Ok? {
        assert FieldValue(form, 0).Ok? && FieldValue(form, 1).Ok? && FieldValue(form, 2).Ok?;
        assert FieldValue(form, 3).Ok? && FieldValue(form, 4).Ok?;
      }
    } else {
      assert !(FieldValue(form, 0).Ok? && FieldValue(form, 1).Ok? && FieldValue(form, 2).Ok?
               && FieldValue(form, 3).Ok? && FieldValue(form, 4).Ok?);
    }
  }

  /** Parsed readings carry the values of their form fields. */
  lemma ReadingValues(form: Values)
    requires ParseReading(form).Ok?
    ensures var r := ParseReading(form).value;
      ParseDecimal(Get(form, "uv")) == Some(r.uv)
      && ParseDecimal(Get(form, "solarradiation")) == Some(r.solarRadiation)
      && ParseDecimal(Get(form, "tempf")) == Some(r.tempF)
      && ParseDecimal(Get(form, "humidity")) == Some(r.humidity)
      && ParseDecimal(Get(form, "windspeedmph")) == Some(r.windSpeed)
  {
  }

  /**
   * Request admission: a non-POST request is refused with 405 whatever its
   * body; otherwise every refusal is a 400; a request is admitted exactly
   * when it is a POST whose body is read and parsed and whose five fields parse.
   */
  lemma AdmitPolicy(req: Request)
    ensures req.httpMethod != "POST" ==> Admit(req) == Err(Rejection(405, "Invalid request method\n"))
    ensures req.httpMethod == "POST" && Admit(req).Err? ==> Admit(req).error.status == 400
    ensures Admit(req).Ok? <==>
      req.httpMethod == "POST" && req.body.Some? && ParseQuery(req.body.value).Some?
      && ParseReading(ParseQuery(req.body.value).value).Ok?
    ensures Admit(req).Ok? <==>
      req.httpMethod == "POST" && req.body.Some? && ParseQuery(req.body.value).Some?
      && forall j :: 0 <= j < |NumericFields| ==> FieldValue(ParseQuery(req.body.value).value, j).Ok?
    ensures Admit(req).Ok? ==> Admit(req).value.0 == ParseQuery(req.body.value).value
  {
    if req.httpMethod == "POST" && req.body.Some? && ParseQuery(req.body.value).Some? {
      ReadingParsed(ParseQuery(req.body.value).value);
    }
  }

  // ---------------------------------------------------------------------------
  // The upload record
  // ---------------------------------------------------------------------------

  /** math.Round: to the nearest integer, halves away from zero. */
  function Round(x: real): (n: int)
    ensures x - 0.5 <= n as real <= x + 0.5
    ensures n as real == x + 0.5 ==> x > 0.0
    ensures n as real == x - 0.5 ==> x < 0.0
  {
    if x >= 0.0 then (x + 0.5).Floor else -((-x + 0.5).Floor)
  }

  /**
   * The upload record (url.Values with one value per key), one field per
   * key, each field named as the key it is sent under.
   */
  datatype Upload = Upload(
    ID: string, PASSWORD: string, dateutc: string, tempf: string, humidity: string,
    dewptf: string, windspeedmph: string, windgustmph: string, winddir: string,
    solarradiation: string, UV: string, baromin: string, absbaromin: string,
    rainin: string, dailyrainin: string, weeklyrainin: string, monthlyrainin: string,
    yearlyrainin: string, indoortempf: string, indoorhumidity: string,
    softwaretype: string, realtime: string, rtfreq: string, action: string
  )

  /** UV and solar radiation after the 0.94 correction. */
  function CorrectedUV(smoothedUV: real): int {
    Round(smoothedUV * 0.94)
  }

  function CorrectedSolarRadiation(smoothedSolar: real): real {
    smoothedSolar * 0.94
  }

  /** The dew point in Fahrenheit, from the Celsius formula the model leaves uninterpreted. */
  function DewPointF(reading: Reading, num: Numerics): real {
    var tempC := (reading.tempF - 32.0) * 5.0 / 9.0;
    num.dewPoint(tempC, reading.humidity) * 9.0 / 5.0 + 32.0
  }

  /** The form keys whose first values the record forwards as they are. */
  const ForwardedKeys: seq<string> := [
    "dateutc", "tempf", "humidity", "windgustmph", "winddir", "baromrelin", "baromabsin", "rainratein",
    "dailyrainin", "weeklyrainin", "monthlyrainin", "yearlyrainin", "tempinf", "humidityin", "interval"
  ]

  /**
   * The record the handler assembles from the form, the readings and the
   * smoothed values. It marks a real-time raw update, carries the
   * environment's credentials and software name, forwards the date,
   * temperature, humidity, gust, direction and rain totals under their own
   * names and the pressure, rain rate, indoor and interval keys under
   * Weather Underground's names, sends the dew point and wind speed with two
   * decimals, and sends the corrected UV and solar radiation.
   */
  function BuildRecord(form: Values, reading: Reading, smoothedUV: real, smoothedSolar: real, env: Env, num: Numerics): (u: Upload)
    ensures u.realtime == "1" && u.action == "updateraw"
    ensures u.ID == env.id && u.PASSWORD == env.password && u.softwaretype == env.software
    ensures u.baromin == Get(form, "baromrelin") && u.absbaromin == Get(form, "baromabsin") && u.rainin == Get(form, "rainratein")
    ensures u.indoortempf == Get(form, "tempinf") && u.indoorhumidity == Get(form, "humidityin") && u.rtfreq == Get(form, "interval")
    ensures u.UV == IntToString(CorrectedUV(smoothedUV)) && u.solarradiation == num.fixed2(CorrectedSolarRadiation(smoothedSolar))
    ensures u.dateutc == Get(form, "dateutc") && u.tempf == Get(form, "tempf") && u.humidity == Get(form, "humidity")
    ensures u.windgustmph == Get(form, "windgustmph") && u.winddir == Get(form, "winddir")
    ensures u.dailyrainin == Get(form, "dailyrainin") && u.weeklyrainin == Get(form, "weeklyrainin")
    ensures u.monthlyrainin == Get(form, "monthlyrainin") && u.yearlyrainin == Get(form, "yearlyrainin")
    ensures u.dewptf == num.fixed2(DewPointF(reading, num)) && u.windspeedmph == num.fixed2(reading.windSpeed)
  {
    Upload(
      ID := env.id,
      PASSWORD := env.password,
      dateutc := Get(form, "dateutc"),
      tempf := Get(form, "tempf"),
      humidity := Get(form, "humidity"),
      dewptf := num.fixed2(DewPointF(reading, num)),
      windspeedmph := num.fixed2(reading.windSpeed),
      windgustmph := Get(form, "windgustmph"),
      winddir := Get(form, "winddir"),
      solarradiation := num.fixed2(CorrectedSolarRadiation(smoothedSolar)),
      UV := IntToString(CorrectedUV(smoothedUV)),
      baromin := Get(form, "baromrelin"),
      absbaromin := Get(form, "baromabsin"),
      rainin := Get(form, "rainratein"),
      dailyrainin := Get(form, "dailyrainin"),
      weeklyrainin := Get(form, "weeklyrainin"),
      monthlyrainin := Get(form, "monthlyrainin"),
      yearlyrainin := Get(form, "yearlyrainin"),
      indoortempf := Get(form, "tempinf"),
      indoorhumidity := Get(form, "humidityin"),
      softwaretype := env.software,
      realtime := "1",
      rtfreq := Get(form, "interval"),
      action := "updateraw"
    )
  }

  /** Form keys the record does not forward leave it unchanged: two forms that agree on the forwarded keys give the same record. */
  lemma RecordIgnoresOtherFormKeys(form: Values, form': Values, reading: Reading, smoothedUV: real, smoothedSolar: real, env: Env, num: Numerics)
    requires forall i :: 0 <= i < |ForwardedKeys| ==> Get(form, ForwardedKeys[i]) == Get(form', ForwardedKeys[i])
    ensures BuildRecord(form, reading, smoothedUV, smoothedSolar, env, num) == BuildRecord(form', reading, smoothedUV, smoothedSolar, env, num)
  {
    assert Get(form, ForwardedKeys[0]) == Get(form', ForwardedKeys[0]);
    assert Get(form, ForwardedKeys[1]) == Get(form', ForwardedKeys[1]);
    assert Get(form, ForwardedKeys[2]) == Get(form', ForwardedKeys[2]);
    assert Get(form, ForwardedKeys[3]) == Get(form', ForwardedKeys[3]);
    assert Get(form, ForwardedKeys[4]) == Get(form', ForwardedKeys[4]);
    assert Get(form, ForwardedKeys[5]) == Get(form', ForwardedKeys[5]);
    assert Get(form, ForwardedKeys[6]) == Get(form', ForwardedKeys[6]);
    assert Get(form, ForwardedKeys[7]) == Get(form', ForwardedKeys[7]);
    assert Get(form, ForwardedKeys[8]) == Get(form', ForwardedKeys[8]);
    assert Get(form, ForwardedKeys[9]) == Get(form', ForwardedKeys[9]);
    assert Get(form, ForwardedKeys[10]) == Get(form', ForwardedKeys[10]);
    assert Get(form, ForwardedKeys[11]) == Get(form', ForwardedKeys[11]);
    assert Get(form, ForwardedKeys[12]) == Get(form', ForwardedKeys[12]);
    assert Get(form, ForwardedKeys[13]) == Get(form', ForwardedKeys[13]);
    assert Get(form, ForwardedKeys[14]) == Get(form', ForwardedKeys[14]);
  }

  /**
   * The UV sent is a whole number within a half of 0.94 times the smoothed
   * value: reading it back gives the rounded corrected value.
   */
  lemma UVIsRoundedCorrection(form: Values, reading: Reading, smoothedUV: real, smoothedSolar: real, env: Env, num: Numerics)
    ensures var rec := BuildRecord(form, reading, smoothedUV, smoothedSolar, env, num);
      ParseDecimal(rec.UV) == Some(CorrectedUV(smoothedUV) as real)
      && smoothedUV * 0.94 - 0.5 <= CorrectedUV(smoothedUV) as real <= smoothedUV * 0.94 + 0.5
  {
    ParseDecimalOfIntToString(CorrectedUV(smoothedUV));
  }

  /** A UV reading that is already a whole number after correction is sent as it is; halves round away from zero. */
  lemma RoundSamples()
    ensures Round(2.0) == 2 && Round(2.5) == 3 && Round(-2.5) == -3 && Round(2.49) == 2
  {
  }

  // ---------------------------------------------------------------------------
  // The latest-data snapshot and the relay
  // ---------------------------------------------------------------------------

  /** The snapshot of a form: each key with at least one value, mapped to its first value. */
  function FirstValues(data: Values): map<string, string> {
    map k | k in data && |data[k]| > 0 :: data[k][0]
  }

  /** The snapshot answers exactly what Values.Get would, and holds no key the form gave no value. */
  lemma FirstValuesAgreeWithGet(data: Values, key: string)
    ensures key in FirstValues(data) <==> Get(data, key) != "" || (key in data && |data[key]| > 0)
    ensures key in FirstValues(data) ==> FirstValues(data)[key] == Get(data, key)
    ensures key !in FirstValues(data) ==> Get(data, key) == ""
  {
  }

  /** What one relay attempt gets back: PostForm fails, reading the reply fails, or the reply text. */
  datatype Delivery = PostFailed | ReadFailed | Replied(text: string)

  /** The worker's success test: the reply text contains "success". */
  predicate Relayed(d: Delivery) {
    d.Replied? && Contains(d.text, "success")
  }

  lemma RelayedSamples()
    ensures Relayed(Replied("success\n"))
    ensures !Relayed(PostFailed) && !Relayed(ReadFailed)
    ensures !Relayed(Replied(""))
  {
    assert OccursAt("success\n", "success", 0);
    assert !OccursAt("", "success", 0);
  }

  /** The checks of ConvertAndForward, one after the other, each answering with its own error. */
  method Validate(req: Request) returns (r: Result<(Values, Reading), Rejection>)
    ensures r == Admit(req)
  {
    if req.httpMethod != "POST" {
      return Err(Rejection(405, "Invalid request method\n"));
    }
    if req.body.None? {
      return Err(Rejection(400, "can't read body\n"));
    }
    var parsed := ParseQuery(req.body.value);
    if parsed.None? {
      return Err(Rejection(400, "can't parse body\n"));
    }
    var ecowittData := parsed.value;
    var uvValue := ParseDecimal(Get(ecowittData, "uv"));
    if uvValue.None? {
      return Err(Rejection(400, "can't parse UV value\n"));
    }
    var solarRadiationValue := ParseDecimal(Get(ecowittData, "solarradiation"));
    if solarRadiationValue.None? {
      return Err(Rejection(400, "can't parse solar radiation value\n"));
    }
    var tempF := ParseDecimal(Get(ecowittData, "tempf"));
    if tempF.None? {
      return Err(Rejection(400, "can't parse temperature value\n"));
    }
    var humidity := ParseDecimal(Get(ecowittData, "humidity"));
    if humidity.None? {
      return Err(Rejection(400, "can't parse humidity value\n"));
    }
    var windSpeedValue := ParseDecimal(Get(ecowittData, "windspeedmph"));
    if windSpeedValue.None? {
      return Err(Rejection(400, "can't parse wind speed value\n"));
    }
    r := Ok((ecowittData, Reading(uvValue.value, solarRadiationValue.value, tempF.value, humidity.value, windSpeedValue.value)));
  }

  /**
   * The handler's shared state: the two smoothers, the snapshot, the queue,
   * and the records of handlers blocked on a full queue, oldest first.
   * `accepted` and `delivered` record every record handed over and every
   * record a worker has taken.
   */
  class Service {
    var uvValues: Utils.Smoother
    var solarRadiationValues: Utils.Smoother
    var latestData: map<string, string>
    var jobQueue: seq<Upload>
    var blockedSends: seq<Upload>
    ghost var accepted: seq<Upload>
    ghost var delivered: seq<Upload>

    ghost predicate Valid()
      reads this, uvValues, solarRadiationValues
    {
      uvValues != solarRadiationValues
      && uvValues.Valid() && solarRadiationValues.Valid()
      && |jobQueue| <= QueueCapacity
      && (blockedSends != [] ==> |jobQueue| == QueueCapacity)
      && accepted == delivered + jobQueue + blockedSends
    }

    constructor ()
      ensures Valid() && fresh(uvValues) && fresh(solarRadiationValues)
      ensures uvValues.inputs == [] && solarRadiationValues.inputs == []
      ensures latestData == map[] && jobQueue == [] && blockedSends == [] && accepted == []
    {
      uvValues := new Utils.Smoother();
      solarRadiationValues := new Utils.Smoother();
      latestData := map[];
      jobQueue := [];
      blockedSends := [];
      accepted := [];
      delivered := [];
    }

    /** updateLatestData: the snapshot is rebuilt from scratch. */
    method UpdateLatestData(data: Values)
      modifies this`latestData
      ensures latestData == FirstValues(data)
    {
      latestData := map[];
      var keys := data.Keys;
      while keys != {}
        invariant keys <= data.Keys
        invariant latestData == map k | k in data.Keys - keys && |data[k]| > 0 :: data[k][0]
        decreases keys
      {
        var key :| key in keys;
        if |data[key]| > 0 {
          latestData := latestData[key := data[key][0]];
        }
        keys := keys - {key};
      }
    }

    /**
     * jobQueue <- record: onto the queue when it has room; otherwise the
     * sender waits, behind any sender already waiting.
     */
    method Enqueue(record: Upload) returns (queued: bool)
      requires Valid()
      modifies this`jobQueue, this`blockedSends, this`accepted
      ensures Valid()
      ensures queued <==> |old(jobQueue)| < QueueCapacity
      ensures queued ==> jobQueue == old(jobQueue) + [record] && blockedSends == old(blockedSends)
      ensures !queued ==> jobQueue == old(jobQueue) && blockedSends == old(blockedSends) + [record]
      ensures accepted == old(accepted) + [record]
    {
      accepted := accepted + [record];
      if |jobQueue| < QueueCapacity {
        jobQueue := jobQueue + [record];
        queued := true;
      } else {
        blockedSends := blockedSends + [record];
        queued := false;
      }
    }

    /** ConvertAndForward. */
    method ConvertAndForward(req: Request, env: Env, num: Numerics) returns (reply: Reply)
      requires Valid()
      modifies this, uvValues, solarRadiationValues
      ensures Valid()
      ensures uvValues == old(uvValues) && solarRadiationValues == old(solarRadiationValues)
      ensures delivered == old(delivered)
      ensures Admit(req).Err? ==>
        reply == Reply(Admit(req).error.status, Admit(req).error.message)
        && unchanged(this) && unchanged(uvValues) && unchanged(solarRadiationValues)
      ensures Admit(req).Ok? ==>
        var (form, reading) := Admit(req).value;
        uvValues.inputs == old(uvValues.inputs) + [reading.uv]
        && solarRadiationValues.inputs == old(solarRadiationValues.inputs) + [reading.solarRadiation]
        && latestData == FirstValues(form)
        && |uvValues.values| > 0 && |solarRadiationValues.values| > 0
        && var record := BuildRecord(form, reading, Utils.Mean(uvValues.values),
                                     Utils.Mean(solarRadiationValues.values), env, num);
        accepted == old(accepted) + [record]
        && (|old(jobQueue)| < QueueCapacity ==>
              jobQueue == old(jobQueue) + [record] && blockedSends == old(blockedSends)
              && reply == Reply(202, "Data accepted for processing"))
        && (|old(jobQueue)| >= QueueCapacity ==>
              jobQueue == old(jobQueue) && blockedSends == old(blockedSends) + [record] && reply == Blocked)
    {
      var admitted := Validate(req);
      if admitted.Err? {
        return Reply(admitted.error.status, admitted.error.message);
      }
      var (ecowittData, reading) := admitted.value;

      var smoothedUV := uvValues.SmoothValue(reading.uv);
      var smoothedSolarRadiation := solarRadiationValues.SmoothValue(reading.solarRadiation);
      var wundergroundData := BuildRecord(ecowittData, reading, smoothedUV, smoothedSolarRadiation, env, num);

      UpdateLatestData(ecowittData);
      var queued := Enqueue(wundergroundData);
      if queued {
        reply := Reply(202, "Data accepted for processing");
      } else {
        reply := Blocked;
      }
    }

    /**
     * One iteration of a worker: take the oldest record (a waiting sender's
     * record then moves into the freed slot), relay it once, and report
     * whether the reply says "success". A failed relay is not retried.
     */
    method WorkerStep(post: Upload -> Delivery) returns (job: Option<Upload>, success: bool)
      requires Valid()
      modifies this`jobQueue, this`blockedSends, this`delivered
      ensures Valid()
      ensures old(jobQueue) == [] ==>
        job == None && !success && jobQueue == [] && blockedSends == old(blockedSends) && delivered == old(delivered)
      ensures old(jobQueue) != [] ==>
        job == Some(old(jobQueue)[0]) && success == Relayed(post(old(jobQueue)[0]))
        && delivered == old(delivered) + [old(jobQueue)[0]]
        && (old(blockedSends) == [] ==> jobQueue == old(jobQueue)[1..] && blockedSends == [])
        && (old(blockedSends) != [] ==>
              jobQueue == old(jobQueue)[1..] + [old(blockedSends)[0]] && blockedSends == old(blockedSends)[1..])
    {
      if jobQueue == [] {
        return None, false;
      }
      var next := jobQueue[0];
      delivered := delivered + [next];
      if blockedSends == [] {
        jobQueue := jobQueue[1..];
      } else {
        jobQueue := jobQueue[1..] + [blockedSends[0]];
        blockedSends := blockedSends[1..];
      }
      var reply := post(next);
      job := Some(next);
      success := Relayed(reply);
    }
  }
}

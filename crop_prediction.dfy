/** Crop recommendation: the request's seven measurements in the order the
    model was trained on, the scaler and classifier pipeline (parameters
    standing for the pickled models), the label-to-crop table and the payload
    forwarded to the advice call. */
module CropPrediction {
  import opened Common
  import opened Sequences
  import opened Gemini

  datatype CropRequest = CropRequest(
    nitrogen: real,
    phosphorus: real,
    potassium: real,
    temperature: real,
    humidity: real,
    ph: real,
    rainfall: real)

  /** `feature_list`: N, P, K, temperature, humidity, pH, rainfall. */
  function Features(req: CropRequest): (f: seq<real>)
    ensures |f| == 7
    ensures f[0] == req.nitrogen && f[1] == req.phosphorus && f[2] == req.potassium
    ensures f[3] == req.temperature && f[4] == req.humidity && f[5] == req.ph && f[6] == req.rainfall
  {
    [req.nitrogen, req.phosphorus, req.potassium, req.temperature, req.humidity, req.ph, req.rainfall]
  }

  /** The names behind labels 1 to 22, in label order. */
  const CropNames: seq<string> := [
    "Rice", "Maize", "Jute", "Cotton", "Coconut", "Papaya", "Orange",
    "Apple", "Muskmelon", "Watermelon", "Grapes", "Mango", "Banana",
    "Pomegranate", "Lentil", "Blackgram", "Mungbean", "Mothbeans",
    "Pigeonpeas", "Kidneybeans", "Chickpea", "Coffee"]

  /** `crop_dict`. */
  function CropDict(): (d: map<int, string>)
    ensures forall code :: code in d <==> 1 <= code <= 22
    ensures forall code :: code in d ==> d[code] == CropNames[code - 1]
  {
    map[1 := "Rice", 2 := "Maize", 3 := "Jute", 4 := "Cotton", 5 := "Coconut", 6 := "Papaya", 7 := "Orange",
        8 := "Apple", 9 := "Muskmelon", 10 := "Watermelon", 11 := "Grapes", 12 := "Mango", 13 := "Banana",
        14 := "Pomegranate", 15 := "Lentil", 16 := "Blackgram", 17 := "Mungbean", 18 := "Mothbeans",
        19 := "Pigeonpeas", 20 := "Kidneybeans", 21 := "Chickpea", 22 := "Coffee"]
  }

  /** No two labels name the same crop. */
  lemma CropNamesDistinct()
    ensures |CropNames| == 22
    ensures NoDuplicates(CropNames)
    ensures CropDict()[1] == "Rice" && CropDict()[22] == "Coffee"
  {
    var n := CropNames;
    forall i, j | 0 <= i < j < |n|
      ensures n[i] != n[j]
    {
      DistinctNames(i, j);
    }
  }

  /** Two different crop names differ in their first three letters. */
  lemma DistinctNames(i: nat, j: nat)
    requires i < j < 22
    ensures CropNames[i] != CropNames[j]
  {
    var heads := ["Ric", "Mai", "Jut", "Cot", "Coc", "Pap", "Ora", "App", "Mus", "Wat", "Gra",
                  "Man", "Ban", "Pom", "Len", "Bla", "Mun", "Mot", "Pig", "Kid", "Chi", "Cof"];
    assert forall k :: 0 <= k < 22 ==> |CropNames[k]| >= 3 && CropNames[k][..3] == heads[k];
    assert heads[i] != heads[j];
  }

  const Unknown := "Sorry, we could not determine the best crop to be cultivated with the provided data."
  const BestSuffix := " is the best crop to be cultivated right there"

  /** `result`: computed, never returned. */
  function Verdict(code: int): (r: string)
    ensures 1 <= code <= 22 ==> r == CropNames[code - 1] + BestSuffix
    ensures (code < 1 || code > 22) ==> r == Unknown
  {
    if code in CropDict() then CropDict()[code] + BestSuffix else Unknown
  }

  /** `CropMidResponse`: the seven inputs under their request names, and the crop. */
  function Payload(req: CropRequest, crop: string): (p: map<string, Json>)
    ensures p.Keys == {"Nitrogen", "Phosphorus", "Potassium", "Temperature", "Humidity", "Ph", "Rainfall", "crop"}
    ensures p["Nitrogen"] == JFloat(req.nitrogen) && p["Phosphorus"] == JFloat(req.phosphorus)
    ensures p["Potassium"] == JFloat(req.potassium) && p["Temperature"] == JFloat(req.temperature)
    ensures p["Humidity"] == JFloat(req.humidity) && p["Ph"] == JFloat(req.ph)
    ensures p["Rainfall"] == JFloat(req.rainfall) && p["crop"] == JStr(crop)
  {
    map["Nitrogen" := JFloat(req.nitrogen), "Phosphorus" := JFloat(req.phosphorus),
        "Potassium" := JFloat(req.potassium), "Temperature" := JFloat(req.temperature),
        "Humidity" := JFloat(req.humidity), "Ph" := JFloat(req.ph),
        "Rainfall" := JFloat(req.rainfall), "crop" := JStr(crop)]
  }

  /** How `predict` ends: the label was not in the table, so `crop` was
      never bound and building the payload raised; or the payload went to the
      advice call, whose outcome is returned. */
  datatype PredictOutcome = UnboundCrop | Forwarded(payload: map<string, Json>, reply: CallOutcome)

  /** `POST /crop_recommendation/predict`. */
  function Predict(req: CropRequest, minmax: seq<real> -> seq<real>, standard: seq<real> -> seq<real>,
                   classify: seq<real> -> int, dumps: Json -> string, post: Json -> HttpReply,
                   loads: string -> Option<Json>): (r: PredictOutcome)
    ensures var code := classify(standard(minmax(Features(req))));
      && (r.UnboundCrop? <==> code !in CropDict())
      && (r.Forwarded? ==> (r.payload == Payload(req, CropDict()[code]) &&
            r.reply == CallGemini(r.payload, dumps, post, loads)))
  {
    var code := classify(standard(minmax(Features(req))));
    if code in CropDict() then
      var payload := Payload(req, CropDict()[code]);
      Forwarded(payload, CallGemini(payload, dumps, post, loads))
    else UnboundCrop
  }

  /** A label outside 1..22 always fails, whatever the measurements. */
  lemma UnknownLabelFails(req: CropRequest, minmax: seq<real> -> seq<real>, standard: seq<real> -> seq<real>,
                          classify: seq<real> -> int, dumps: Json -> string, post: Json -> HttpReply,
                          loads: string -> Option<Json>)
    requires var code := classify(standard(minmax(Features(req)))); code < 1 || code > 22
    ensures Predict(req, minmax, standard, classify, dumps, post, loads) == UnboundCrop
  {
  }

  /** A known label forwards the crop it names in the payload. */
  lemma KnownLabelForwardsCrop(req: CropRequest, minmax: seq<real> -> seq<real>, standard: seq<real> -> seq<real>,
                               classify: seq<real> -> int, dumps: Json -> string, post: Json -> HttpReply,
                               loads: string -> Option<Json>)
    requires var code := classify(standard(minmax(Features(req)))); 1 <= code <= 22
    ensures var r := Predict(req, minmax, standard, classify, dumps, post, loads);
      var code := classify(standard(minmax(Features(req))));
      r.Forwarded? && r.payload["crop"] == JStr(CropNames[code - 1])
  {
  }
}

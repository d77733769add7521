/**
 * The weather snapshot the monitor reads once per run: the provider's weather code
 * mapped to a status, a fixed fallback when the provider cannot be read, and a
 * fixed storm snapshot in simulation mode.
 */
module Weather {
  import opened Wrappers

  /** The "current" block of the provider's answer, once parsed. */
  datatype Reading = Reading(weatherCode: int, precipitation: real, temperature: real)

  /** Rain in millimetres over the last hour, temperature in Celsius, condition text. */
  datatype Snapshot = Snapshot(rainMm: real, tempC: real, status: string)

  const CLEAR := "Ceu Limpo"
  const CLOUDY := "Nublado"
  const RAIN := "Chuva"
  const STORM := "Tempestade"
  const UNAVAILABLE := "Sem Dados"

  /** Condition text for a weather code: 0 clear, below 50 cloudy, below 80 rain, otherwise storm. */
  function Status(code: int): (s: string)
    ensures s == CLEAR <==> code == 0
    ensures s == CLOUDY <==> code != 0 && code < 50
    ensures s == RAIN <==> 50 <= code < 80
    ensures s == STORM <==> 80 <= code
    ensures s != UNAVAILABLE
  {
    if code == 0 then CLEAR
    else if code < 50 then CLOUDY
    else if code < 80 then RAIN
    else STORM
  }

  /** What the monitor uses when the provider fails: no rain, 22 degrees, no data. */
  function Fallback(): Snapshot {
    Snapshot(0.0, 22.0, UNAVAILABLE)
  }

  /** The fixed snapshot of simulation mode: 20 mm of rain, 18 degrees, storm. */
  function Simulated(): Snapshot {
    Snapshot(20.0, 18.0, STORM)
  }

  /**
   * The outcome of asking the provider: `None` stands for every failure (network,
   * timeout, unparsable answer, missing key), which yields the fallback snapshot.
   */
  function Obtain(response: Option<Reading>): (snap: Snapshot)
    ensures snap.status == UNAVAILABLE <==> response.None?
    ensures response.None? ==> snap == Fallback()
    ensures response.Some? ==>
      snap.rainMm == response.value.precipitation &&
      snap.tempC == response.value.temperature &&
      snap.status == Status(response.value.weatherCode)
  {
    match response
    case None => Fallback()
    case Some(reading) =>
      Snapshot(reading.precipitation, reading.temperature, Status(reading.weatherCode))
  }

  /** The snapshot a run starts with: fixed in simulation mode, otherwise from the provider. */
  function ForRun(simulation: bool, response: Option<Reading>): (snap: Snapshot)
    ensures simulation ==> snap == Simulated()
    ensures !simulation ==> snap == Obtain(response)
    ensures !simulation ==> (snap.status == UNAVAILABLE <==> response.None?)
  {
    if simulation then Simulated() else Obtain(response)
  }
}

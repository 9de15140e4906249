/**
  The weather lookup tool `get_weather`: an exact-key lookup in a fixed four-city table with
  a formatted fallback. This module holds the reference definition; every framework's script
  carries its own copy of the table, modelled in the modules below and proved to agree with it.
 */
module WeatherTools {
  import Lists

  const WeatherData: map<string, string> := map[
    "San Francisco" := "72°F, Sunny",
    "New York" := "65°F, Cloudy",
    "Seattle" := "58°F, Rainy",
    "Miami" := "85°F, Sunny"
  ]

  const KnownCities: set<string> := {"San Francisco", "New York", "Seattle", "Miami"}

  /** The text returned for a city the table does not know. */
  function Unavailable(city: string): string {
    "Weather data not available for " + city
  }

  /** `get_weather(city)`. */
  function GetWeather(city: string): (r: string)
    ensures city == "San Francisco" ==> r == "72°F, Sunny"
    ensures city == "New York" ==> r == "65°F, Cloudy"
    ensures city == "Seattle" ==> r == "58°F, Rainy"
    ensures city == "Miami" ==> r == "85°F, Sunny"
    ensures r == Unavailable(city) <==> city !in KnownCities
  {
    Lists.MapGet(WeatherData, city, Unavailable(city))
  }

  /** Different cities never get the same answer: the four table entries differ from each
      other, and the fallback names the city it was asked about. */
  lemma GetWeatherInjective(a: string, b: string)
    requires GetWeather(a) == GetWeather(b)
    ensures a == b
  {
    if a !in KnownCities && b !in KnownCities {
      var n := |"Weather data not available for "|;
      assert a == Unavailable(a)[n..] && b == Unavailable(b)[n..];
    }
  }

  /** The lookup is exact: a lower-cased known city falls back. */
  lemma LookupIsCaseSensitive()
    ensures GetWeather("seattle") == "Weather data not available for seattle"
    ensures GetWeather("Austin") == "Weather data not available for Austin"
  {
    assert "seattle" != "Seattle";
  }
}

/** `get_weather` of the Google ADK weather agent, which wraps the answer in a status record. */
module AdkWeather {
  import Lists
  import WeatherTools

  /** The dictionary `{"status": ..., "city": ..., "weather": ...}` the tool returns. */
  datatype WeatherReport = WeatherReport(status: string, city: string, weather: string)

  const WeatherData: map<string, string> := map[
    "San Francisco" := "72°F, Sunny",
    "New York" := "65°F, Cloudy",
    "Seattle" := "58°F, Rainy",
    "Miami" := "85°F, Sunny"
  ]

  /** The status is "success" for every city, known or not; the city is echoed unchanged;
      the weather text agrees with the reference lookup. */
  function GetWeather(city: string): (r: WeatherReport)
    ensures r.status == "success"
    ensures r.city == city
    ensures r.weather == WeatherTools.GetWeather(city)
  {
    var result := Lists.MapGet(WeatherData, city, "Weather data not available for " + city);
    WeatherReport("success", city, result)
  }
}

/** `get_weather` of the Microsoft Agent Framework weather agent. */
module AgentFrameworkWeather {
  import Lists
  import WeatherTools

  const WeatherData: map<string, string> := map[
    "San Francisco" := "72°F, Sunny",
    "New York" := "65°F, Cloudy",
    "Seattle" := "58°F, Rainy",
    "Miami" := "85°F, Sunny"
  ]

  function GetWeather(city: string): (r: string)
    ensures r == WeatherTools.GetWeather(city)
  {
    Lists.MapGet(WeatherData, city, "Weather data not available for " + city)
  }
}

/** `get_weather` of the CrewAI weather agent. */
module CrewAiWeather {
  import Lists
  import WeatherTools

  const WeatherData: map<string, string> := map[
    "San Francisco" := "72°F, Sunny",
    "New York" := "65°F, Cloudy",
    "Seattle" := "58°F, Rainy",
    "Miami" := "85°F, Sunny"
  ]

  function GetWeather(city: string): (r: string)
    ensures r == WeatherTools.GetWeather(city)
  {
    Lists.MapGet(WeatherData, city, "Weather data not available for " + city)
  }
}

/** `get_weather` of the LangChain weather agent. */
module LangChainWeather {
  import Lists
  import WeatherTools

  const WeatherData: map<string, string> := map[
    "San Francisco" := "72°F, Sunny",
    "New York" := "65°F, Cloudy",
    "Seattle" := "58°F, Rainy",
    "Miami" := "85°F, Sunny"
  ]

  function GetWeather(city: string): (r: string)
    ensures r == WeatherTools.GetWeather(city)
  {
    Lists.MapGet(WeatherData, city, "Weather data not available for " + city)
  }
}

/** `get_weather` of the LlamaIndex weather agent. */
module LlamaIndexWeather {
  import Lists
  import WeatherTools

  const WeatherData: map<string, string> := map[
    "San Francisco" := "72°F, Sunny",
    "New York" := "65°F, Cloudy",
    "Seattle" := "58°F, Rainy",
    "Miami" := "85°F, Sunny"
  ]

  function GetWeather(city: string): (r: string)
    ensures r == WeatherTools.GetWeather(city)
  {
    Lists.MapGet(WeatherData, city, "Weather data not available for " + city)
  }
}

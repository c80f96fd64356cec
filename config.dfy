/**
  The assistant's configuration record: the OpenAI key and base URL, the
  weather service key, and the Milvus endpoint and collection.  It is a
  value: the setters return an updated copy and leave the receiver alone.
*/
module Config {

  datatype MalvusCfg = MalvusCfg(apiEndpoint: string, collectionName: string)

  datatype Cfg = Cfg(openAiAPIKey: string, openAibaseURL: string, openWeatherMapAPIKey: string, malvusCfg: MalvusCfg)
  {
    function OpenAiAPIKey(): string { openAiAPIKey }

    function OpenAibaseURL(): string { openAibaseURL }

    function OpenWeatherMapAPIKey(): string { openWeatherMapAPIKey }

    function MalvusApiEndpoint(): string { malvusCfg.apiEndpoint }

    function MalvusCollectionName(): string { malvusCfg.collectionName }

    /** A copy with another Milvus endpoint. */
    function SetMalvusApiEndpoint(apiEndpoint: string): Cfg
    {
      this.(malvusCfg := malvusCfg.(apiEndpoint := apiEndpoint))
    }

    /** A copy with another Milvus collection. */
    function SetMalvusCollectionName(collectionName: string): Cfg
    {
      this.(malvusCfg := malvusCfg.(collectionName := collectionName))
    }
  }

  /** `New`: the placeholder defaults. */
  function New(): Cfg
  {
    Cfg("your", "your/v1", "your", MalvusCfg("your:19530", "CGPTMemory"))
  }

  /** The defaults as the getters report them. */
  lemma NewDefaults()
    ensures New().OpenAiAPIKey() == "your"
    ensures New().OpenAibaseURL() == "your/v1"
    ensures New().OpenWeatherMapAPIKey() == "your"
    ensures New().MalvusApiEndpoint() == "your:19530"
    ensures New().MalvusCollectionName() == "CGPTMemory"
  {
  }

  /** Setting the endpoint is seen by its getter and by no other. */
  lemma SetEndpointGet(c: Cfg, x: string)
    ensures c.SetMalvusApiEndpoint(x).MalvusApiEndpoint() == x
    ensures c.SetMalvusApiEndpoint(x).MalvusCollectionName() == c.MalvusCollectionName()
    ensures c.SetMalvusApiEndpoint(x).OpenAiAPIKey() == c.OpenAiAPIKey()
    ensures c.SetMalvusApiEndpoint(x).OpenAibaseURL() == c.OpenAibaseURL()
    ensures c.SetMalvusApiEndpoint(x).OpenWeatherMapAPIKey() == c.OpenWeatherMapAPIKey()
  {
  }

  /** Setting the collection is seen by its getter and by no other. */
  lemma SetCollectionGet(c: Cfg, x: string)
    ensures c.SetMalvusCollectionName(x).MalvusCollectionName() == x
    ensures c.SetMalvusCollectionName(x).MalvusApiEndpoint() == c.MalvusApiEndpoint()
    ensures c.SetMalvusCollectionName(x).OpenAiAPIKey() == c.OpenAiAPIKey()
    ensures c.SetMalvusCollectionName(x).OpenAibaseURL() == c.OpenAibaseURL()
    ensures c.SetMalvusCollectionName(x).OpenWeatherMapAPIKey() == c.OpenWeatherMapAPIKey()
  {
  }

  /** Setting back the value the getter reports gives the record back; the two setters commute;
      the later of two settings wins. */
  lemma SettersAlgebra(c: Cfg, x: string, y: string)
    ensures c.SetMalvusApiEndpoint(c.MalvusApiEndpoint()) == c
    ensures c.SetMalvusCollectionName(c.MalvusCollectionName()) == c
    ensures c.SetMalvusApiEndpoint(x).SetMalvusCollectionName(y) == c.SetMalvusCollectionName(y).SetMalvusApiEndpoint(x)
    ensures c.SetMalvusApiEndpoint(x).SetMalvusApiEndpoint(y) == c.SetMalvusApiEndpoint(y)
    ensures c.SetMalvusCollectionName(x).SetMalvusCollectionName(y) == c.SetMalvusCollectionName(y)
  {
  }
}

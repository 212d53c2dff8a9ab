/** The service's test cases as client code of `CounterStore`: each method
    drives a fresh store and promises the status codes and values the test
    asserts.  The promises follow from the handlers' contracts alone. */
module CounterTests {
  import opened Counter

  /** Creating a new counter answers 201. */
  method CreateACounter() returns (status: int)
    ensures status == HTTP_201_CREATED
  {
    var store := new CounterStore();
    var body;
    body, status := store.CreateCounter("foo");
  }

  /** Creating the same counter twice answers 201, then 409. */
  method DuplicateACounter() returns (first: int, second: int)
    ensures first == HTTP_201_CREATED && second == HTTP_409_CONFLICT
  {
    var store := new CounterStore();
    var body;
    body, first := store.CreateCounter("bar");
    body, second := store.CreateCounter("bar");
  }

  /** Updating a created counter answers 200 with its value plus one;
      updating a counter that does not exist creates it and answers 201. */
  method UpdateACounter() returns (created: int, baseline: int, updated: int, value: int, newCounter: int)
    ensures created == HTTP_201_CREATED
    ensures updated == HTTP_200_OK && value == baseline + 1
    ensures newCounter == HTTP_201_CREATED
  {
    var store := new CounterStore();
    var body;
    body, created := store.CreateCounter("generic");
    baseline := body.value;
    body, updated := store.UpdateCounter("generic");
    value := body.value;
    body, newCounter := store.UpdateCounter("newCounter");
  }

  /** Reading a created counter answers 200 with value 0; reading a counter
      that was never created answers 404. */
  method ReadACounter() returns (read: int, value: int, missing: int)
    ensures read == HTTP_200_OK && value == 0
    ensures missing == HTTP_404_NOT_FOUND
  {
    var store := new CounterStore();
    var body;
    body, read := store.CreateCounter("bob");
    body, read := store.ReadCounter("bob");
    value := body.value;
    body, missing := store.ReadCounter("unrealCounter");
  }

  /** Deleting a created counter answers 204 with the value it held;
      deleting it a second time answers 404. */
  method DeleteACounter() returns (deleted: int, value: int, again: int)
    ensures deleted == HTTP_204_NO_CONTENT && value == 0
    ensures again == HTTP_404_NOT_FOUND
  {
    var store := new CounterStore();
    var body;
    body, deleted := store.CreateCounter("dave");
    body, deleted := store.DeleteCounter("dave");
    value := body.value;
    body, again := store.DeleteCounter("dave");
  }
}

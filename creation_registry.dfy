/**
 * The registry contract as an object whose two maps are updated in place,
 * the way the mock contract writes into its storage. Each method is tied to
 * the transition of the same name in `RegistrySpec`, and keeps the
 * consistency invariant `Valid()`.
 */
module CreationRegistryContract {
  import opened RegistrySpec

  class CreationRegistry {
    var creations: map<CreationId, Creation>
    var creationIdsByCreator: map<Principal, seq<CreationId>>

    /** The storage this object currently holds. */
    function Model(): (s: Storage)
      reads this
    {
      Storage(creations, creationIdsByCreator)
    }

    ghost predicate Valid()
      reads this
    {
      Consistent(Model())
    }

    constructor ()
      ensures Valid() && Model() == Empty
    {
      creations := map[];
      creationIdsByCreator := map[];
      EmptyConsistent();
    }

    /** register-creation, called by `txSender` in a block of height `blockHeight`. */
    method RegisterCreation(creationId: CreationId, title: string, description: string,
                            contentHash: ContentHash, category: string,
                            txSender: Principal, blockHeight: nat)
      returns (r: Result<CreationId>)
      requires Valid()
      modifies this
      ensures Valid()
      ensures Transition(r, Model())
           == Register(old(Model()), creationId, title, description, contentHash, category, txSender, blockHeight)
    {
      if creationId in creations {
        return Err(AlreadyRegistered);
      }
      ghost var before := Model();
      RegisterPreservesConsistent(before, creationId, title, description, contentHash, category,
                                  txSender, blockHeight);
      creations := creations[creationId := Creation(txSender, title, description, contentHash,
                                                    blockHeight, category)];
      if txSender !in creationIdsByCreator {
        creationIdsByCreator := creationIdsByCreator[txSender := []];
      }
      creationIdsByCreator := creationIdsByCreator[txSender := creationIdsByCreator[txSender] + [creationId]];
      r := Ok(creationId);
      assert Model() == Register(before, creationId, title, description, contentHash, category,
                                 txSender, blockHeight).next;
    }

    /** get-creation: a pure read. */
    method GetCreation(creationId: CreationId) returns (r: Option<Creation>)
      ensures r == Get(Model(), creationId)
    {
      if creationId in creations {
        r := Some(creations[creationId]);
      } else {
        r := None;
      }
    }

    /** update-creation-details, called by `txSender`. */
    method UpdateCreationDetails(creationId: CreationId, title: string, description: string,
                                 category: string, txSender: Principal)
      returns (r: Result<bool>)
      requires Valid()
      modifies this
      ensures Valid()
      ensures Transition(r, Model())
           == Update(old(Model()), creationId, title, description, category, txSender)
    {
      if creationId !in creations {
        return Err(NotFound);
      }
      var creation := creations[creationId];
      if creation.creator != txSender {
        return Err(NotAuthorized);
      }
      UpdatePreservesConsistent(Model(), creationId, title, description, category, txSender);
      creations := creations[creationId := creation.(title := title, description := description,
                                                     category := category)];
      r := Ok(true);
    }
  }

  /**
   * One scenario of its own covering each case of the contract's test suite:
   * a registration, a duplicate registration, reads, an update from another
   * sender, an update by the creator and an update and a read of an unknown id.
   */
  method Scenarios()
  {
    var alice, bob := "alice", "bob";
    var hash: ContentHash := [0x74, 0x65, 0x73, 0x74];
    var registry := new CreationRegistry();

    var r := registry.RegisterCreation("c1", "T", "D", hash, "art", alice, 100);
    assert r == Ok("c1");
    var g := registry.GetCreation("c1");
    assert g == Some(Creation(alice, "T", "D", hash, 100, "art"));

    r := registry.RegisterCreation("c1", "New Title", "New Description", [0x6e], "new", alice, 101);
    assert r == Err(AlreadyRegistered) && Code(r.error) == 101;
    g := registry.GetCreation("c1");
    assert g == Some(Creation(alice, "T", "D", hash, 100, "art"));

    var u := registry.UpdateCreationDetails("c1", "T2", "D2", "craft", bob);
    assert u == Err(NotAuthorized) && Code(u.error) == 100;
    g := registry.GetCreation("c1");
    assert g == Some(Creation(alice, "T", "D", hash, 100, "art"));

    u := registry.UpdateCreationDetails("c1", "T2", "D2", "craft", alice);
    assert u == Ok(true);
    g := registry.GetCreation("c1");
    assert g == Some(Creation(alice, "T2", "D2", hash, 100, "craft"));

    g := registry.GetCreation("nope");
    assert g == None;
    u := registry.UpdateCreationDetails("nope", "Title", "Description", "Category", alice);
    assert u == Err(NotFound) && Code(u.error) == 102;
    assert IdsOf(registry.Model(), alice) == ["c1"];
  }
}

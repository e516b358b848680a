/**
 * The pets store: the catalog of pets, in insertion order, seeded with one pet.
 *
 * `addPet` appends a copy of its argument whose id is replaced by a freshly
 * generated one; `removePet` keeps the pets whose id differs. The store reads the
 * clock for the new id, so here that id is a parameter of `AddPet`.
 */
module Catalog {
  import opened Wrappers
  import opened Pets
  import opened Validation

  /** The pet every session starts with. */
  const SeedPet := Pet(
    "1",
    "Buddy",
    "Yorkshire Terrier",
    2,
    500.0,
    "https://images.dog.ceo/breeds/terrier-yorkshire/n02094433_7702.jpg")

  /** The catalog a session starts with. */
  const Seed: seq<Pet> := [SeedPet]

  /** No two pets share an id. */
  ghost predicate UniqueIds(pets: seq<Pet>) {
    forall i, j :: 0 <= i < j < |pets| ==> pets[i].id != pets[j].id
  }

  /** The ids of the pets in the catalog. */
  ghost function Ids(pets: seq<Pet>): set<string> {
    set p | p in pets :: p.id
  }

  /** The new catalog after `addPet(pet)` when the generated id is `newId`. */
  function Appended(pets: seq<Pet>, pet: Pet, newId: string): seq<Pet> {
    pets + [pet.(id := newId)]
  }

  /** The new catalog after `removePet(id)`: the pets with another id, in order. */
  function Without(pets: seq<Pet>, id: string): seq<Pet> {
    if pets == [] then []
    else (if pets[0].id == id then [] else [pets[0]]) + Without(pets[1..], id)
  }

  // ---------------------------------------------------------------------------
  // The seed

  /** The seed catalog holds exactly one pet, with id "1". */
  lemma SeedShape()
    ensures |Seed| == 1 && Seed[0].id == "1"
    ensures UniqueIds(Seed)
  {
  }

  /** The seed pet is one the add-pet form would accept unchanged. */
  lemma SeedPassesValidation()
    ensures Validate(RawPet(SeedPet.petName, SeedPet.breed, Num(SeedPet.age as real), Num(SeedPet.price)))
         == Success(PetInput(SeedPet.petName, SeedPet.breed, SeedPet.age, SeedPet.price))
  {
    TrimVisibleEnds(SeedPet.petName);
    TrimVisibleEnds(SeedPet.breed);
  }

  // ---------------------------------------------------------------------------
  // addPet

  /**
   * One entry is appended: earlier entries are unchanged, and the new one
   * carries the input's fields with the generated id in place of the input's.
   */
  lemma AppendedShape(pets: seq<Pet>, pet: Pet, newId: string)
    ensures |Appended(pets, pet, newId)| == |pets| + 1
    ensures Appended(pets, pet, newId)[..|pets|] == pets
    ensures Appended(pets, pet, newId)[|pets|].id == newId
    ensures Appended(pets, pet, newId)[|pets|]
         == Pet(newId, pet.petName, pet.breed, pet.age, pet.price, pet.image)
  {
  }

  /** A generated id not yet present keeps the ids unique. */
  lemma AppendedUnique(pets: seq<Pet>, pet: Pet, newId: string)
    requires UniqueIds(pets) && newId !in Ids(pets)
    ensures UniqueIds(Appended(pets, pet, newId))
    ensures Ids(Appended(pets, pet, newId)) == Ids(pets) + {newId}
  {
    var r := Appended(pets, pet, newId);
    forall i, j | 0 <= i < j < |r| ensures r[i].id != r[j].id {
      if j == |pets| {
        assert pets[i] in pets;
      }
    }
    assert r[|pets|] in r;
    forall x | x in Ids(r) ensures x in Ids(pets) + {newId} {
      var p :| p in r && p.id == x;
      assert p in pets || p == pet.(id := newId);
    }
  }

  /** Adding to the seed catalog gives two pets, the new one last with a distinct id. */
  lemma AddToSeed(pet: Pet, newId: string)
    requires newId != SeedPet.id
    ensures |Appended(Seed, pet, newId)| == 2
    ensures Appended(Seed, pet, newId)[0] == SeedPet
    ensures Appended(Seed, pet, newId)[1] == pet.(id := newId)
    ensures UniqueIds(Appended(Seed, pet, newId))
  {
    AppendedUnique(Seed, pet, newId);
  }

  // ---------------------------------------------------------------------------
  // removePet

  /** The pets kept are exactly those with another id. */
  lemma {:induction false} WithoutMembers(pets: seq<Pet>, id: string)
    ensures forall p :: p in Without(pets, id) <==> p in pets && p.id != id
  {
    if pets != [] {
      WithoutMembers(pets[1..], id);
      assert pets == [pets[0]] + pets[1..];
    }
  }

  /** Filtering distributes over concatenation, so relative order is kept. */
  lemma {:induction false} WithoutConcat(a: seq<Pet>, b: seq<Pet>, id: string)
    ensures Without(a + b, id) == Without(a, id) + Without(b, id)
  {
    if a == [] {
      assert a + b == b;
    } else {
      assert (a + b)[1..] == a[1..] + b;
      WithoutConcat(a[1..], b, id);
    }
  }

  /** On one pet, the filter drops it exactly when its id matches. */
  lemma WithoutSingle(p: Pet, id: string)
    ensures Without([p], id) == if p.id == id then [] else [p]
  {
    assert [p][1..] == [];
    assert Without([], id) == [];
  }

  /** Removing an id that is absent leaves the catalog unchanged. */
  lemma {:induction false} WithoutAbsent(pets: seq<Pet>, id: string)
    requires forall j :: 0 <= j < |pets| ==> pets[j].id != id
    ensures Without(pets, id) == pets
  {
    if pets != [] {
      WithoutAbsent(pets[1..], id);
      assert pets == [pets[0]] + pets[1..];
    }
  }

  /** Removing twice is removing once. */
  lemma WithoutIdempotent(pets: seq<Pet>, id: string)
    ensures Without(Without(pets, id), id) == Without(pets, id)
  {
    var r := Without(pets, id);
    WithoutMembers(pets, id);
    forall j | 0 <= j < |r| ensures r[j].id != id {
      assert r[j] in r;
    }
    WithoutAbsent(r, id);
  }

  /** On a catalog with unique ids, removing the pet at `k` leaves the others in order. */
  lemma WithoutAt(pets: seq<Pet>, id: string, k: nat)
    requires UniqueIds(pets) && k < |pets| && pets[k].id == id
    ensures Without(pets, id) == pets[..k] + pets[k + 1..]
  {
    var pre, post := pets[..k], pets[k + 1..];
    forall j | 0 <= j < |pre| ensures pre[j].id != id {
      assert pre[j] == pets[j];
    }
    forall j | 0 <= j < |post| ensures post[j].id != id {
      assert post[j] == pets[k + 1 + j];
    }
    calc {
      Without(pets, id);
      { assert pets == pre + [pets[k]] + post; }
      Without(pre + [pets[k]] + post, id);
      { WithoutConcat(pre + [pets[k]], post, id); WithoutConcat(pre, [pets[k]], id); }
      Without(pre, id) + Without([pets[k]], id) + Without(post, id);
      { WithoutSingle(pets[k], id); WithoutAbsent(pre, id); WithoutAbsent(post, id); }
      pre + [] + post;
      { assert pre + [] == pre; }
      pre + post;
    }
  }

  lemma WithoutUnique(pets: seq<Pet>, id: string)
    requires UniqueIds(pets)
    ensures UniqueIds(Without(pets, id))
    ensures Ids(Without(pets, id)) == Ids(pets) - {id}
  {
    WithoutMembers(pets, id);
    if i :| 0 <= i < |pets| && pets[i].id == id {
      WithoutAt(pets, id, i);
      var r := pets[..i] + pets[i + 1..];
      forall a, b | 0 <= a < b < |r| ensures r[a].id != r[b].id {
        var a' := if a < i then a else a + 1;
        var b' := if b < i then b else b + 1;
        assert r[a] == pets[a'] && r[b] == pets[b'];
      }
    } else {
      WithoutAbsent(pets, id);
    }
  }

  // ---------------------------------------------------------------------------
  // The store

  /** The pets store; `pets` starts as the seed and each action replaces it. */
  class PetsStore {
    var pets: seq<Pet>

    ghost predicate Valid()
      reads this
    {
      UniqueIds(pets)
    }

    constructor ()
      ensures pets == Seed && Valid()
    {
      pets := Seed;
    }

    method AddPet(pet: Pet, newId: string)
      modifies this
      ensures pets == Appended(old(pets), pet, newId)
      ensures old(Valid()) && newId !in Ids(old(pets)) ==> Valid()
    {
      if Valid() && newId !in Ids(pets) {
        AppendedUnique(pets, pet, newId);
      }
      pets := Appended(pets, pet, newId);
    }

    method RemovePet(id: string)
      modifies this
      ensures pets == Without(old(pets), id)
      ensures old(Valid()) ==> Valid()
    {
      if Valid() {
        WithoutUnique(pets, id);
      }
      pets := Without(pets, id);
    }
  }
}
